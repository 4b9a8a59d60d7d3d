/**
 * The catalog records a search returns (`Artist`, `Album`, `Track`, their
 * result pages and nested values) and their synthesized `Decodable`
 * conformances. Each decoder reads the properties in declaration order, so a
 * failing document reports the same first error the Swift decoder would.
 */
module SpotifyData {
  import opened Wrappers
  import opened Json

  datatype ExternalUrl = ExternalUrl(spotify: string)

  datatype Restriction = Restriction(reason: string)

  datatype Followers = Followers(href: Option<string>, total: int)

  datatype SpotifyImage = SpotifyImage(url: string, height: Option<int>, width: Option<int>)

  datatype ExternalID = ExternalID(isrc: Option<string>, ean: Option<string>, upc: Option<string>)

  /** The JSON `type` property is called `objectType` here, `type` being a keyword. */
  datatype Artist = Artist(
    externalUrls: Option<ExternalUrl>,
    followers: Option<Followers>,
    genres: Option<seq<string>>,
    href: Option<string>,
    id: string,
    images: Option<seq<SpotifyImage>>,
    name: string,
    popularity: Option<int>,
    objectType: Option<string>,
    uri: Option<string>)

  datatype Album = Album(
    albumType: string,
    artists: seq<Artist>,
    availableMarkets: Option<seq<string>>,
    externalUrls: ExternalUrl,
    href: string,
    id: string,
    images: Option<seq<SpotifyImage>>,
    name: string,
    releaseDate: string,
    releaseDatePrecision: string,
    restrictions: Option<Restriction>,
    totalTracks: int,
    objectType: string,
    uri: string)

  datatype Track = Track(
    album: Option<Album>,
    artists: Option<seq<Artist>>,
    availableMarkets: Option<seq<string>>,
    discNumber: Option<int>,
    durationMs: Option<int>,
    explicit: Option<bool>,
    externalIDs: Option<ExternalID>,
    externalUrls: Option<ExternalUrl>,
    href: Option<string>,
    id: string,
    isLocal: Option<bool>,
    isPlayable: Option<bool>,
    name: string,
    popularity: Option<int>,
    previewUrl: Option<string>,
    restrictions: Option<Restriction>,
    trackNumber: Option<int>,
    objectType: Option<string>,
    uri: Option<string>)

  /**
   * One page of results (`ArtistMeta`, `AlbumMeta`, `TrackMeta`): the
   * pagination fields are opaque to the client, which only reads `items`.
   */
  datatype Page<T> = Page(
    href: string,
    items: seq<T>,
    limit: int,
    next: Option<string>,
    offset: int,
    previous: Option<string>,
    total: int)

  type ArtistMeta = Page<Artist>
  type AlbumMeta = Page<Album>
  type TrackMeta = Page<Track>

  /** The `SpotifyData` protocol: records that show a name and optional images. Tracks do not conform. */
  datatype SpotifyItem = ArtistItem(artist: Artist) | AlbumItem(album: Album) {
    function Name(): string {
      match this
      case ArtistItem(a) => a.name
      case AlbumItem(a) => a.name
    }

    function Images(): Option<seq<SpotifyImage>> {
      match this
      case ArtistItem(a) => a.images
      case AlbumItem(a) => a.images
    }
  }

  // ---------------------------------------------------------------------
  // CodingKeys: property name to JSON key, and back (`init?(stringValue:)`).
  // ---------------------------------------------------------------------

  datatype ArtistCodingKey = ExternalUrls | Followers | Genres | Href | Id | Images | Name | Popularity | Type | Uri {
    function StringValue(): string {
      match this
      case ExternalUrls => "external_urls"
      case Followers => "followers"
      case Genres => "genres"
      case Href => "href"
      case Id => "id"
      case Images => "images"
      case Name => "name"
      case Popularity => "popularity"
      case Type => "type"
      case Uri => "uri"
    }

    static function FromString(s: string): (r: Option<ArtistCodingKey>)
      ensures r.Some? ==> r.value.StringValue() == s
    {
      if s == "external_urls" then Some(ArtistCodingKey.ExternalUrls)
      else if s == "followers" then Some(ArtistCodingKey.Followers)
      else if s == "genres" then Some(ArtistCodingKey.Genres)
      else if s == "href" then Some(ArtistCodingKey.Href)
      else if s == "id" then Some(ArtistCodingKey.Id)
      else if s == "images" then Some(ArtistCodingKey.Images)
      else if s == "name" then Some(ArtistCodingKey.Name)
      else if s == "popularity" then Some(ArtistCodingKey.Popularity)
      else if s == "type" then Some(ArtistCodingKey.Type)
      else if s == "uri" then Some(ArtistCodingKey.Uri)
      else None
    }
  }

  datatype AlbumCodingKey =
    | AlbumType | Artists | AvailableMarkets | ExternalUrls | Href | Id | Images | Name
    | ReleaseDate | ReleaseDatePrecision | Restrictions | TotalTracks | Type | Uri
  {
    function StringValue(): string {
      match this
      case AlbumType => "album_type"
      case Artists => "artists"
      case AvailableMarkets => "available_markets"
      case ExternalUrls => "external_urls"
      case Href => "href"
      case Id => "id"
      case Images => "images"
      case Name => "name"
      case ReleaseDate => "release_date"
      case ReleaseDatePrecision => "release_date_precision"
      case Restrictions => "restrictions"
      case TotalTracks => "total_tracks"
      case Type => "type"
      case Uri => "uri"
    }

    static function FromString(s: string): (r: Option<AlbumCodingKey>)
      ensures r.Some? ==> r.value.StringValue() == s
    {
      if s == "album_type" then Some(AlbumCodingKey.AlbumType)
      else if s == "artists" then Some(AlbumCodingKey.Artists)
      else if s == "available_markets" then Some(AlbumCodingKey.AvailableMarkets)
      else if s == "external_urls" then Some(AlbumCodingKey.ExternalUrls)
      else if s == "href" then Some(AlbumCodingKey.Href)
      else if s == "id" then Some(AlbumCodingKey.Id)
      else if s == "images" then Some(AlbumCodingKey.Images)
      else if s == "name" then Some(AlbumCodingKey.Name)
      else if s == "release_date" then Some(AlbumCodingKey.ReleaseDate)
      else if s == "release_date_precision" then Some(AlbumCodingKey.ReleaseDatePrecision)
      else if s == "restrictions" then Some(AlbumCodingKey.Restrictions)
      else if s == "total_tracks" then Some(AlbumCodingKey.TotalTracks)
      else if s == "type" then Some(AlbumCodingKey.Type)
      else if s == "uri" then Some(AlbumCodingKey.Uri)
      else None
    }
  }

  datatype TrackCodingKey =
    | Album | Artists | AvailableMarkets | DiscNumber | DurationMs | Explicit | ExternalIDs
    | ExternalUrls | Href | Id | IsLocal | IsPlayable | Name | Popularity | PreviewUrl
    | Restrictions | TrackNumber | Type | Uri
  {
    function StringValue(): string {
      match this
      case Album => "album"
      case Artists => "artists"
      case AvailableMarkets => "available_markets"
      case DiscNumber => "disc_number"
      case DurationMs => "duration_ms"
      case Explicit => "explicit"
      case ExternalIDs => "external_ids"
      case ExternalUrls => "external_urls"
      case Href => "href"
      case Id => "id"
      case IsLocal => "is_local"
      case IsPlayable => "is_playable"
      case Name => "name"
      case Popularity => "popularity"
      case PreviewUrl => "preview_url"
      case Restrictions => "restrictions"
      case TrackNumber => "track_number"
      case Type => "type"
      case Uri => "uri"
    }

    static function FromString(s: string): (r: Option<TrackCodingKey>)
      ensures r.Some? ==> r.value.StringValue() == s
    {
      if s == "album" then Some(TrackCodingKey.Album)
      else if s == "artists" then Some(TrackCodingKey.Artists)
      else if s == "available_markets" then Some(TrackCodingKey.AvailableMarkets)
      else if s == "disc_number" then Some(TrackCodingKey.DiscNumber)
      else if s == "duration_ms" then Some(TrackCodingKey.DurationMs)
      else if s == "explicit" then Some(TrackCodingKey.Explicit)
      else if s == "external_ids" then Some(TrackCodingKey.ExternalIDs)
      else if s == "external_urls" then Some(TrackCodingKey.ExternalUrls)
      else if s == "href" then Some(TrackCodingKey.Href)
      else if s == "id" then Some(TrackCodingKey.Id)
      else if s == "is_local" then Some(TrackCodingKey.IsLocal)
      else if s == "is_playable" then Some(TrackCodingKey.IsPlayable)
      else if s == "name" then Some(TrackCodingKey.Name)
      else if s == "popularity" then Some(TrackCodingKey.Popularity)
      else if s == "preview_url" then Some(TrackCodingKey.PreviewUrl)
      else if s == "restrictions" then Some(TrackCodingKey.Restrictions)
      else if s == "track_number" then Some(TrackCodingKey.TrackNumber)
      else if s == "type" then Some(TrackCodingKey.Type)
      else if s == "uri" then Some(TrackCodingKey.Uri)
      else None
    }
  }

  /** Every key parses back to itself, so no two properties share a JSON key. */
  lemma ArtistCodingKeysRoundTrip(k: ArtistCodingKey)
    ensures ArtistCodingKey.FromString(k.StringValue()) == Some(k)
  {
  }

  lemma AlbumCodingKeysRoundTrip(k: AlbumCodingKey)
    ensures AlbumCodingKey.FromString(k.StringValue()) == Some(k)
  {
  }

  lemma TrackCodingKeysRoundTrip(k: TrackCodingKey)
    ensures TrackCodingKey.FromString(k.StringValue()) == Some(k)
  {
  }

  // ---------------------------------------------------------------------
  // Decoders. Every property is decoded; the first one that fails, in
  // declaration order, is the error the whole record reports.
  // ---------------------------------------------------------------------

  /** `ExternalUrl`: `spotify` is required. */
  function DecodeExternalUrl(j: Json): (r: Decoded<ExternalUrl>)
    ensures !j.JObject? ==> r == Failure(if j.JNull? then ValueNotFound else TypeMismatch)
    ensures r.Success? <==> j.JObject? && "spotify" in j.fields && j.fields["spotify"].JString?
    ensures r.Success? ==> r.value.spotify == j.fields["spotify"].s
  {
    match j
    case JObject(o) =>
      var spotify := Required(o, "spotify", AsString);
      if spotify.Failure? then Failure(spotify.error)
      else Success(ExternalUrl(spotify.value))
    case JNull => Failure(ValueNotFound)
    case _ => Failure(TypeMismatch)
  }

  /** `Restriction`: `reason` is required. */
  function DecodeRestriction(j: Json): (r: Decoded<Restriction>)
    ensures !j.JObject? ==> r == Failure(if j.JNull? then ValueNotFound else TypeMismatch)
    ensures r.Success? <==> j.JObject? && "reason" in j.fields && j.fields["reason"].JString?
    ensures r.Success? ==> r.value.reason == j.fields["reason"].s
  {
    match j
    case JObject(o) =>
      var reason := Required(o, "reason", AsString);
      if reason.Failure? then Failure(reason.error)
      else Success(Restriction(reason.value))
    case JNull => Failure(ValueNotFound)
    case _ => Failure(TypeMismatch)
  }

  /** `Followers`: `href` may be missing or null, `total` is required. */
  function DecodeFollowers(j: Json): (r: Decoded<Followers>)
    ensures !j.JObject? ==> r == Failure(if j.JNull? then ValueNotFound else TypeMismatch)
    ensures r.Success? ==> j.JObject? && Lookup(j.fields, "total") == Some(JNumber(r.value.total as real))
    ensures r.Success? ==> IntMin <= r.value.total <= IntMax
    ensures r.Success? ==> (r.value.href.None? <==> Lookup(j.fields, "href") in {None, Some(JNull)})
  {
    match j
    case JObject(o) =>
      var href := Optional(o, "href", AsString);
      var total := Required(o, "total", AsInt);
      if href.Failure? then Failure(href.error)
      else if total.Failure? then Failure(total.error)
      else Success(Followers.Followers(href.value, total.value))
    case JNull => Failure(ValueNotFound)
    case _ => Failure(TypeMismatch)
  }

  /** `SpotifyImage`: `url` is required, `height` and `width` may be missing or null. */
  function DecodeImage(j: Json): (r: Decoded<SpotifyImage>)
    ensures !j.JObject? ==> r == Failure(if j.JNull? then ValueNotFound else TypeMismatch)
    ensures r.Success? ==> j.JObject? && Lookup(j.fields, "url") == Some(JString(r.value.url))
    ensures r.Success? ==> (r.value.height.None? <==> Lookup(j.fields, "height") in {None, Some(JNull)})
    ensures r.Success? ==> (r.value.width.None? <==> Lookup(j.fields, "width") in {None, Some(JNull)})
  {
    match j
    case JObject(o) =>
      var url := Required(o, "url", AsString);
      var height := Optional(o, "height", AsInt);
      var width := Optional(o, "width", AsInt);
      if url.Failure? then Failure(url.error)
      else if height.Failure? then Failure(height.error)
      else if width.Failure? then Failure(width.error)
      else Success(SpotifyImage(url.value, height.value, width.value))
    case JNull => Failure(ValueNotFound)
    case _ => Failure(TypeMismatch)
  }

  /** `ExternalID`: every property may be missing or null. */
  function DecodeExternalID(j: Json): (r: Decoded<ExternalID>)
    ensures !j.JObject? ==> r == Failure(if j.JNull? then ValueNotFound else TypeMismatch)
    ensures r.Success? <==> j.JObject? && NullOrString(Lookup(j.fields, "isrc"))
                            && NullOrString(Lookup(j.fields, "ean")) && NullOrString(Lookup(j.fields, "upc"))
  {
    match j
    case JObject(o) =>
      var isrc := Optional(o, "isrc", AsString);
      var ean := Optional(o, "ean", AsString);
      var upc := Optional(o, "upc", AsString);
      if isrc.Failure? then Failure(isrc.error)
      else if ean.Failure? then Failure(ean.error)
      else if upc.Failure? then Failure(upc.error)
      else Success(ExternalID(isrc.value, ean.value, upc.value))
    case JNull => Failure(ValueNotFound)
    case _ => Failure(TypeMismatch)
  }

  /** A missing or null member, or a string. */
  predicate NullOrString(v: Option<Json>) {
    v.None? || v.value.JNull? || v.value.JString?
  }

  function AsImages(j: Json): Decoded<seq<SpotifyImage>> {
    AsArray(j, DecodeImage)
  }

  /** Keys as in `Artist.CodingKeys`. */
  function DecodeArtist(j: Json): (r: Decoded<Artist>)
    ensures !j.JObject? ==> r == Failure(if j.JNull? then ValueNotFound else TypeMismatch)
    ensures r.Success? ==> j.JObject? && Lookup(j.fields, "id") == Some(JString(r.value.id))
                                      && Lookup(j.fields, "name") == Some(JString(r.value.name))
  {
    match j
    case JObject(o) =>
      var externalUrls := Optional(o, "external_urls", DecodeExternalUrl);
      var followers := Optional(o, "followers", DecodeFollowers);
      var genres := Optional(o, "genres", AsStrings);
      var href := Optional(o, "href", AsString);
      var id := Required(o, "id", AsString);
      var images := Optional(o, "images", AsImages);
      var name := Required(o, "name", AsString);
      var popularity := Optional(o, "popularity", AsInt);
      var objectType := Optional(o, "type", AsString);
      var uri := Optional(o, "uri", AsString);
      if externalUrls.Failure? then Failure(externalUrls.error)
      else if followers.Failure? then Failure(followers.error)
      else if genres.Failure? then Failure(genres.error)
      else if href.Failure? then Failure(href.error)
      else if id.Failure? then Failure(id.error)
      else if images.Failure? then Failure(images.error)
      else if name.Failure? then Failure(name.error)
      else if popularity.Failure? then Failure(popularity.error)
      else if objectType.Failure? then Failure(objectType.error)
      else if uri.Failure? then Failure(uri.error)
      else Success(Artist(externalUrls.value, followers.value, genres.value, href.value, id.value,
                          images.value, name.value, popularity.value, objectType.value, uri.value))
    case JNull => Failure(ValueNotFound)
    case _ => Failure(TypeMismatch)
  }

  function AsArtists(j: Json): Decoded<seq<Artist>> {
    AsArray(j, DecodeArtist)
  }

  /** Keys as in `Album.CodingKeys`. */
  function DecodeAlbum(j: Json): (r: Decoded<Album>)
    ensures !j.JObject? ==> r == Failure(if j.JNull? then ValueNotFound else TypeMismatch)
    ensures r.Success? ==> j.JObject? && Lookup(j.fields, "id") == Some(JString(r.value.id))
                                      && Lookup(j.fields, "name") == Some(JString(r.value.name))
                                      && Lookup(j.fields, "release_date") == Some(JString(r.value.releaseDate))
  {
    match j
    case JObject(o) =>
      var albumType := Required(o, "album_type", AsString);
      var artists := Required(o, "artists", AsArtists);
      var availableMarkets := Optional(o, "available_markets", AsStrings);
      var externalUrls := Required(o, "external_urls", DecodeExternalUrl);
      var href := Required(o, "href", AsString);
      var id := Required(o, "id", AsString);
      var images := Optional(o, "images", AsImages);
      var name := Required(o, "name", AsString);
      var releaseDate := Required(o, "release_date", AsString);
      var releaseDatePrecision := Required(o, "release_date_precision", AsString);
      var restrictions := Optional(o, "restrictions", DecodeRestriction);
      var totalTracks := Required(o, "total_tracks", AsInt);
      var objectType := Required(o, "type", AsString);
      var uri := Required(o, "uri", AsString);
      if albumType.Failure? then Failure(albumType.error)
      else if artists.Failure? then Failure(artists.error)
      else if availableMarkets.Failure? then Failure(availableMarkets.error)
      else if externalUrls.Failure? then Failure(externalUrls.error)
      else if href.Failure? then Failure(href.error)
      else if id.Failure? then Failure(id.error)
      else if images.Failure? then Failure(images.error)
      else if name.Failure? then Failure(name.error)
      else if releaseDate.Failure? then Failure(releaseDate.error)
      else if releaseDatePrecision.Failure? then Failure(releaseDatePrecision.error)
      else if restrictions.Failure? then Failure(restrictions.error)
      else if totalTracks.Failure? then Failure(totalTracks.error)
      else if objectType.Failure? then Failure(objectType.error)
      else if uri.Failure? then Failure(uri.error)
      else Success(Album.Album(albumType.value, artists.value, availableMarkets.value, externalUrls.value,
                               href.value, id.value, images.value, name.value, releaseDate.value,
                               releaseDatePrecision.value, restrictions.value, totalTracks.value,
                               objectType.value, uri.value))
    case JNull => Failure(ValueNotFound)
    case _ => Failure(TypeMismatch)
  }

  /** Keys as in `Track.CodingKeys`. */
  function DecodeTrack(j: Json): (r: Decoded<Track>)
    ensures !j.JObject? ==> r == Failure(if j.JNull? then ValueNotFound else TypeMismatch)
    ensures r.Success? ==> j.JObject? && Lookup(j.fields, "id") == Some(JString(r.value.id))
                                      && Lookup(j.fields, "name") == Some(JString(r.value.name))
  {
    match j
    case JObject(o) =>
      var album := Optional(o, "album", DecodeAlbum);
      var artists := Optional(o, "artists", AsArtists);
      var availableMarkets := Optional(o, "available_markets", AsStrings);
      var discNumber := Optional(o, "disc_number", AsInt);
      var durationMs := Optional(o, "duration_ms", AsInt);
      var explicit := Optional(o, "explicit", AsBool);
      var externalIDs := Optional(o, "external_ids", DecodeExternalID);
      var externalUrls := Optional(o, "external_urls", DecodeExternalUrl);
      var href := Optional(o, "href", AsString);
      var id := Required(o, "id", AsString);
      var isLocal := Optional(o, "is_local", AsBool);
      var isPlayable := Optional(o, "is_playable", AsBool);
      var name := Required(o, "name", AsString);
      var popularity := Optional(o, "popularity", AsInt);
      var previewUrl := Optional(o, "preview_url", AsString);
      var restrictions := Optional(o, "restrictions", DecodeRestriction);
      var trackNumber := Optional(o, "track_number", AsInt);
      var objectType := Optional(o, "type", AsString);
      var uri := Optional(o, "uri", AsString);
      if album.Failure? then Failure(album.error)
      else if artists.Failure? then Failure(artists.error)
      else if availableMarkets.Failure? then Failure(availableMarkets.error)
      else if discNumber.Failure? then Failure(discNumber.error)
      else if durationMs.Failure? then Failure(durationMs.error)
      else if explicit.Failure? then Failure(explicit.error)
      else if externalIDs.Failure? then Failure(externalIDs.error)
      else if externalUrls.Failure? then Failure(externalUrls.error)
      else if href.Failure? then Failure(href.error)
      else if id.Failure? then Failure(id.error)
      else if isLocal.Failure? then Failure(isLocal.error)
      else if isPlayable.Failure? then Failure(isPlayable.error)
      else if name.Failure? then Failure(name.error)
      else if popularity.Failure? then Failure(popularity.error)
      else if previewUrl.Failure? then Failure(previewUrl.error)
      else if restrictions.Failure? then Failure(restrictions.error)
      else if trackNumber.Failure? then Failure(trackNumber.error)
      else if objectType.Failure? then Failure(objectType.error)
      else if uri.Failure? then Failure(uri.error)
      else Success(Track(album.value, artists.value, availableMarkets.value, discNumber.value,
                         durationMs.value, explicit.value, externalIDs.value, externalUrls.value,
                         href.value, id.value, isLocal.value, isPlayable.value, name.value,
                         popularity.value, previewUrl.value, restrictions.value, trackNumber.value,
                         objectType.value, uri.value))
    case JNull => Failure(ValueNotFound)
    case _ => Failure(TypeMismatch)
  }

  /**
   * A result page. `ArtistMeta` and `TrackMeta` declare `items` second,
   * `AlbumMeta` declares it last; `itemsLast` keeps that order.
   */
  function DecodePage<T>(j: Json, dec: Json -> Decoded<T>, itemsLast: bool): (r: Decoded<Page<T>>)
    ensures !j.JObject? ==> r == Failure(if j.JNull? then ValueNotFound else TypeMismatch)
    ensures r.Success? ==> j.JObject? && "items" in j.fields && j.fields["items"].JArray?
                           && |r.value.items| == |j.fields["items"].elems|
  {
    match j
    case JObject(o) =>
      var href := Required(o, "href", AsString);
      var items := Required(o, "items", (e: Json) => AsArray(e, dec));
      var limit := Required(o, "limit", AsInt);
      var next := Optional(o, "next", AsString);
      var offset := Required(o, "offset", AsInt);
      var previous := Optional(o, "previous", AsString);
      var total := Required(o, "total", AsInt);
      if href.Failure? then Failure(href.error)
      else if !itemsLast && items.Failure? then Failure(items.error)
      else if limit.Failure? then Failure(limit.error)
      else if next.Failure? then Failure(next.error)
      else if offset.Failure? then Failure(offset.error)
      else if previous.Failure? then Failure(previous.error)
      else if total.Failure? then Failure(total.error)
      else if items.Failure? then Failure(items.error)
      else Success(Page(href.value, items.value, limit.value, next.value, offset.value, previous.value, total.value))
    case JNull => Failure(ValueNotFound)
    case _ => Failure(TypeMismatch)
  }

  function DecodeArtistMeta(j: Json): Decoded<ArtistMeta> {
    DecodePage(j, DecodeArtist, false)
  }

  function DecodeAlbumMeta(j: Json): Decoded<AlbumMeta> {
    DecodePage(j, DecodeAlbum, true)
  }

  function DecodeTrackMeta(j: Json): Decoded<TrackMeta> {
    DecodePage(j, DecodeTrack, false)
  }
}

module SpotifyDataProperties {
  import opened Wrappers
  import opened Json
  import opened SpotifyData

  // ---------------------------------------------------------------------
  // Artist: only `id` and `name` are required.
  // ---------------------------------------------------------------------

  /** Without an "id" or a "name" member an artist does not decode. */
  lemma ArtistMissingRequired(ms: map<string, Json>)
    requires Lookup(ms, "id").None? || Lookup(ms, "name").None?
    ensures DecodeArtist(JObject(ms)).Failure?
  {
  }

  /** A decoded artist's id and name are the strings stored under "id" and "name". */
  lemma ArtistIdAndName(ms: map<string, Json>)
    requires DecodeArtist(JObject(ms)).Success?
    ensures Lookup(ms, "id") == Some(JString(DecodeArtist(JObject(ms)).value.id))
    ensures Lookup(ms, "name") == Some(JString(DecodeArtist(JObject(ms)).value.name))
  {
  }

  /**
   * An artist object that carries an id and a name and none of the optional
   * keys decodes with every other property nil.
   */
  lemma ArtistFromIdAndName(ms: map<string, Json>, id: string, name: string)
    requires Lookup(ms, "id") == Some(JString(id)) && Lookup(ms, "name") == Some(JString(name))
    requires "external_urls" !in ms && "followers" !in ms && "genres" !in ms && "href" !in ms
    requires "images" !in ms && "popularity" !in ms && "type" !in ms && "uri" !in ms
    ensures DecodeArtist(JObject(ms)) == Success(Artist(None, None, None, None, id, None, name, None, None, None))
  {
  }

  /** A JSON null, or anything that is not an object, is not an artist. */
  lemma ArtistNotAnObject(j: Json)
    requires !j.JObject?
    ensures DecodeArtist(j) == Failure(if j.JNull? then ValueNotFound else TypeMismatch)
  {
  }

  // ---------------------------------------------------------------------
  // Track: only `id` and `name` are required; `album` may be missing.
  // ---------------------------------------------------------------------

  lemma TrackIdAndName(ms: map<string, Json>)
    requires DecodeTrack(JObject(ms)).Success?
    ensures Lookup(ms, "id") == Some(JString(DecodeTrack(JObject(ms)).value.id))
    ensures Lookup(ms, "name") == Some(JString(DecodeTrack(JObject(ms)).value.name))
  {
  }

  /**
   * A track object that carries an id and a name and none of the optional
   * keys decodes with no album and every other property nil; members under
   * other keys are ignored.
   */
  lemma TrackFromIdAndName(ms: map<string, Json>, id: string, name: string)
    requires Lookup(ms, "id") == Some(JString(id)) && Lookup(ms, "name") == Some(JString(name))
    requires "album" !in ms && "artists" !in ms && "available_markets" !in ms
    requires "disc_number" !in ms && "duration_ms" !in ms && "explicit" !in ms
    requires "external_ids" !in ms && "external_urls" !in ms && "href" !in ms
    requires "is_local" !in ms && "is_playable" !in ms && "popularity" !in ms
    requires "preview_url" !in ms && "restrictions" !in ms && "track_number" !in ms
    requires "type" !in ms && "uri" !in ms
    ensures DecodeTrack(JObject(ms))
         == Success(Track(None, None, None, None, None, None, None, None, None, id,
                          None, None, name, None, None, None, None, None, None))
  {
  }

  // ---------------------------------------------------------------------
  // Album: everything but `available_markets`, `images` and `restrictions` is required.
  // ---------------------------------------------------------------------

  /** A decoded album found every required key, holding the value it reports. */
  lemma AlbumRequiredFields(ms: map<string, Json>)
    requires DecodeAlbum(JObject(ms)).Success?
    ensures var a := DecodeAlbum(JObject(ms)).value;
      && Lookup(ms, "album_type") == Some(JString(a.albumType))
      && "artists" in ms && AsArtists(ms["artists"]) == Success(a.artists)
      && "external_urls" in ms && DecodeExternalUrl(ms["external_urls"]) == Success(a.externalUrls)
      && Lookup(ms, "href") == Some(JString(a.href))
      && Lookup(ms, "id") == Some(JString(a.id))
      && Lookup(ms, "name") == Some(JString(a.name))
      && Lookup(ms, "release_date") == Some(JString(a.releaseDate))
      && Lookup(ms, "release_date_precision") == Some(JString(a.releaseDatePrecision))
      && Lookup(ms, "total_tracks") == Some(JNumber(a.totalTracks as real))
      && Lookup(ms, "type") == Some(JString(a.objectType))
      && Lookup(ms, "uri") == Some(JString(a.uri))
  {
  }

  /**
   * An album object with every required key present and well-typed and none
   * of the optional keys decodes to exactly those values.
   */
  lemma AlbumFromRequired(ms: map<string, Json>, albumType: string, arts: seq<Artist>, eu: ExternalUrl,
                          href: string, id: string, name: string, date: string, precision: string,
                          total: int, kind: string, uri: string)
    requires IntMin <= total <= IntMax
    requires Lookup(ms, "album_type") == Some(JString(albumType))
    requires "artists" in ms && AsArtists(ms["artists"]) == Success(arts)
    requires "external_urls" in ms && DecodeExternalUrl(ms["external_urls"]) == Success(eu)
    requires Lookup(ms, "href") == Some(JString(href)) && Lookup(ms, "id") == Some(JString(id))
    requires Lookup(ms, "name") == Some(JString(name)) && Lookup(ms, "release_date") == Some(JString(date))
    requires Lookup(ms, "release_date_precision") == Some(JString(precision))
    requires Lookup(ms, "total_tracks") == Some(JNumber(total as real))
    requires Lookup(ms, "type") == Some(JString(kind)) && Lookup(ms, "uri") == Some(JString(uri))
    requires "available_markets" !in ms && "images" !in ms && "restrictions" !in ms
    ensures DecodeAlbum(JObject(ms))
         == Success(Album.Album(albumType, arts, None, eu, href, id, None, name, date,
                                precision, None, total, kind, uri))
  {
  }

  /** An album without a release date does not decode, whatever else it holds. */
  lemma AlbumWithoutReleaseDate(ms: map<string, Json>)
    requires "release_date" !in ms
    ensures DecodeAlbum(JObject(ms)).Failure?
  {
  }

  // ---------------------------------------------------------------------
  // The decoders and the `CodingKeys` tables agree on the required keys:
  // dropping the JSON key of any non-optional property, as the table spells
  // it, makes the record fail.
  // ---------------------------------------------------------------------

  lemma ArtistRequiredKeysOfTable(ms: map<string, Json>, k: ArtistCodingKey)
    requires k.Id? || k.Name?
    requires k.StringValue() !in ms
    ensures DecodeArtist(JObject(ms)).Failure?
  {
  }

  lemma AlbumRequiredKeysOfTable(ms: map<string, Json>, k: AlbumCodingKey)
    requires !(k.AvailableMarkets? || k.Images? || k.Restrictions?)
    requires k.StringValue() !in ms
    ensures DecodeAlbum(JObject(ms)).Failure?
  {
  }

  lemma TrackRequiredKeysOfTable(ms: map<string, Json>, k: TrackCodingKey)
    requires k.Id? || k.Name?
    requires k.StringValue() !in ms
    ensures DecodeTrack(JObject(ms)).Failure?
  {
  }

  // ---------------------------------------------------------------------
  // Nested values: `ExternalUrl.spotify`, `Restriction.reason`,
  // `Followers.total` and `SpotifyImage.url` are required; everything in
  // `ExternalID` is optional.
  // ---------------------------------------------------------------------

  lemma ExternalUrlNeedsSpotify(ms: map<string, Json>)
    requires "spotify" !in ms
    ensures DecodeExternalUrl(JObject(ms)) == Failure(KeyNotFound("spotify"))
  {
  }

  lemma ExternalUrlFromSpotify(ms: map<string, Json>, url: string)
    requires Lookup(ms, "spotify") == Some(JString(url))
    ensures DecodeExternalUrl(JObject(ms)) == Success(ExternalUrl(url))
  {
  }

  lemma RestrictionNeedsReason(ms: map<string, Json>)
    requires "reason" !in ms
    ensures DecodeRestriction(JObject(ms)) == Failure(KeyNotFound("reason"))
  {
  }

  lemma RestrictionFromReason(ms: map<string, Json>, reason: string)
    requires Lookup(ms, "reason") == Some(JString(reason))
    ensures DecodeRestriction(JObject(ms)) == Success(Restriction(reason))
  {
  }

  /** Without `total` followers do not decode; with a usable `href` the error names `total`. */
  lemma FollowersNeedTotal(ms: map<string, Json>)
    requires "total" !in ms
    ensures DecodeFollowers(JObject(ms)).Failure?
    ensures NullOrString(Lookup(ms, "href")) ==> DecodeFollowers(JObject(ms)) == Failure(KeyNotFound("total"))
  {
  }

  lemma FollowersFromTotal(ms: map<string, Json>, total: int)
    requires IntMin <= total <= IntMax && Lookup(ms, "total") == Some(JNumber(total as real))
    requires Lookup(ms, "href") in {None, Some(JNull)}
    ensures DecodeFollowers(JObject(ms)) == Success(Followers.Followers(None, total))
  {
  }

  /** `url` is decoded first, so its absence is the error reported. */
  lemma ImageNeedsUrl(ms: map<string, Json>)
    requires "url" !in ms
    ensures DecodeImage(JObject(ms)) == Failure(KeyNotFound("url"))
  {
  }

  lemma ImageFromUrl(ms: map<string, Json>, url: string)
    requires Lookup(ms, "url") == Some(JString(url))
    requires Lookup(ms, "height") in {None, Some(JNull)} && Lookup(ms, "width") in {None, Some(JNull)}
    ensures DecodeImage(JObject(ms)) == Success(SpotifyImage(url, None, None))
  {
  }

  /** An `ExternalID` object with none of its keys, or only nulls, decodes with every id nil. */
  lemma ExternalIDAllOptional(ms: map<string, Json>)
    requires Lookup(ms, "isrc") in {None, Some(JNull)} && Lookup(ms, "ean") in {None, Some(JNull)}
    requires Lookup(ms, "upc") in {None, Some(JNull)}
    ensures DecodeExternalID(JObject(ms)) == Success(ExternalID(None, None, None))
  {
  }

  // ---------------------------------------------------------------------
  // Pages: `href`, `items`, `limit`, `offset` and `total` are required,
  // `next` and `previous` may be missing or null.
  // ---------------------------------------------------------------------

  /** A page lacking one of its required keys does not decode. */
  lemma PageMissingRequired<T>(ms: map<string, Json>, dec: Json -> Decoded<T>, itemsLast: bool)
    requires "href" !in ms || "items" !in ms || "limit" !in ms || "offset" !in ms || "total" !in ms
    ensures DecodePage(JObject(ms), dec, itemsLast).Failure?
  {
  }

  /** A first and last page with no items decodes to an empty page. */
  lemma EmptyPage<T>(ms: map<string, Json>, dec: Json -> Decoded<T>, itemsLast: bool,
                     href: string, limit: int, offset: int, total: int)
    requires IntMin <= limit <= IntMax && IntMin <= offset <= IntMax && IntMin <= total <= IntMax
    requires Lookup(ms, "href") == Some(JString(href)) && Lookup(ms, "items") == Some(JArray([]))
    requires Lookup(ms, "limit") == Some(JNumber(limit as real))
    requires Lookup(ms, "offset") == Some(JNumber(offset as real))
    requires Lookup(ms, "total") == Some(JNumber(total as real))
    requires Lookup(ms, "next") in {None, Some(JNull)} && Lookup(ms, "previous") in {None, Some(JNull)}
    ensures DecodePage(JObject(ms), dec, itemsLast) == Success(Page(href, [], limit, None, offset, None, total))
  {
  }

  /**
   * A page decodes only if every one of its items does: one item that fails
   * makes the whole page fail.
   */
  lemma PageItemsAllDecode<T>(ms: map<string, Json>, dec: Json -> Decoded<T>, itemsLast: bool)
    requires DecodePage(JObject(ms), dec, itemsLast).Success?
    ensures "items" in ms && ms["items"].JArray?
    ensures var p := DecodePage(JObject(ms), dec, itemsLast).value;
      && |p.items| == |ms["items"].elems|
      && forall i :: 0 <= i < |p.items| ==> dec(ms["items"].elems[i]) == Success(p.items[i])
  {
  }
}
