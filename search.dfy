/**
 * The tabbed screen's track order: by album name, a track without an album
 * counting as the empty name (`$0.album?.name ?? ""`).
 */
module TrackSort {
  import opened Text
  import opened SpotifyData

  function AlbumName(t: Track): string {
    match t.album
    case Some(a) => a.name
    case None => ""
  }

  /** Ordered as `sorted { ... < ... }` leaves it: no track's key is below an earlier one's. */
  predicate SortedByAlbumName(ts: seq<Track>) {
    forall i, j :: 0 <= i < j < |ts| ==> LessOrEqual(AlbumName(ts[i]), AlbumName(ts[j]))
  }

  /** `t` goes in front of the first track it does not sort after. */
  function Insert(t: Track, ts: seq<Track>): seq<Track> {
    if ts == [] then [t]
    else if LessOrEqual(AlbumName(t), AlbumName(ts[0])) then [t] + ts
    else [ts[0]] + Insert(t, ts[1..])
  }

  function SortByAlbumName(ts: seq<Track>): (r: seq<Track>)
    ensures multiset(r) == multiset(ts)
  {
    if ts == [] then []
    else
      InsertPermutes(ts[0], SortByAlbumName(ts[1..]));
      assert ts == [ts[0]] + ts[1..];
      Insert(ts[0], SortByAlbumName(ts[1..]))
  }

  lemma {:induction false} InsertPermutes(t: Track, ts: seq<Track>)
    ensures multiset(Insert(t, ts)) == multiset(ts) + multiset{t}
  {
    if ts != [] && !LessOrEqual(AlbumName(t), AlbumName(ts[0])) {
      InsertPermutes(t, ts[1..]);
      assert ts == [ts[0]] + ts[1..];
    }
  }

  /** Every key in `ts` is at least `k`. */
  predicate AllFrom(k: string, ts: seq<Track>) {
    forall i :: 0 <= i < |ts| ==> LessOrEqual(k, AlbumName(ts[i]))
  }

  lemma {:induction false} InsertKeepsLowerBound(k: string, t: Track, ts: seq<Track>)
    requires AllFrom(k, ts) && LessOrEqual(k, AlbumName(t))
    ensures AllFrom(k, Insert(t, ts))
  {
    InsertPermutes(t, ts);
    var r := Insert(t, ts);
    forall i | 0 <= i < |r| ensures LessOrEqual(k, AlbumName(r[i])) {
      assert r[i] in multiset(r);
      if r[i] != t {
        assert r[i] in multiset(ts);
        var j :| 0 <= j < |ts| && ts[j] == r[i];
      }
    }
  }

  lemma {:induction false} InsertSorted(t: Track, ts: seq<Track>)
    requires SortedByAlbumName(ts)
    ensures SortedByAlbumName(Insert(t, ts))
  {
    if ts == [] {
    } else if LessOrEqual(AlbumName(t), AlbumName(ts[0])) {
      var r := [t] + ts;
      forall i, j | 0 <= i < j < |r| ensures LessOrEqual(AlbumName(r[i]), AlbumName(r[j])) {
        if i == 0 && j > 1 {
          LessOrEqualTransitive(AlbumName(t), AlbumName(ts[0]), AlbumName(ts[j - 1]));
        }
      }
    } else {
      var rest := ts[1..];
      InsertSorted(t, rest);
      LessOrEqualTotal(AlbumName(t), AlbumName(ts[0]));
      assert AllFrom(AlbumName(ts[0]), rest);
      InsertKeepsLowerBound(AlbumName(ts[0]), t, rest);
      var r := [ts[0]] + Insert(t, rest);
      forall i, j | 0 <= i < j < |r| ensures LessOrEqual(AlbumName(r[i]), AlbumName(r[j])) {
        if i > 0 {
          assert r[i] == Insert(t, rest)[i - 1] && r[j] == Insert(t, rest)[j - 1];
        }
      }
    }
  }

  /** The sorted list holds the same tracks, as many times each, in non-decreasing album-name order. */
  lemma {:induction false} SortSortsAndPermutes(ts: seq<Track>)
    ensures SortedByAlbumName(SortByAlbumName(ts))
    ensures multiset(SortByAlbumName(ts)) == multiset(ts)
  {
    if ts != [] {
      SortSortsAndPermutes(ts[1..]);
      InsertSorted(ts[0], SortByAlbumName(ts[1..]));
      InsertPermutes(ts[0], SortByAlbumName(ts[1..]));
      assert ts == [ts[0]] + ts[1..];
    }
  }
}

/**
 * `getResults()` of the two search screens, without the network: the
 * screen's state, the request it sends, and how the reply updates the three
 * result slots.
 */
module SearchScreens {
  import opened Wrappers
  import opened Json
  import opened Text
  import opened AudioTypes
  import opened Markets
  import opened SpotifyData
  import opened MessageResponses
  import opened SpotifySearch
  import opened TrackSort
  import MessageResponseProperties

  /** The tabbed screen sorts tracks by album name; the plain screen keeps the server's order. */
  datatype Screen = Tabbed | Main

  /** How the request ended, as far as `getResults` can tell. */
  datatype Outcome =
    | EncodeFailed
    | TransportError
    | NotHttp
    | Http(statusCode: int, body: Json)

  /** The three optional result lists. */
  datatype Slots = Slots(artistData: Option<seq<Artist>>, albumData: Option<seq<Album>>, trackData: Option<seq<Track>>)

  /** `page?.items`. */
  function Items<T>(page: Option<Page<T>>): Option<seq<T>> {
    match page
    case None => None
    case Some(p) => Some(p.items)
  }

  /** The track slot a decoded track page gives on each screen. */
  function TrackItems(screen: Screen, page: Option<TrackMeta>): Option<seq<Track>> {
    match page
    case None => None
    case Some(p) => if screen == Tabbed then Some(SortByAlbumName(p.items)) else Some(p.items)
  }

  /** The slots after a reply: replaced as a whole by a decoded status-200 reply, otherwise untouched. */
  function SlotsAfter(screen: Screen, before: Slots, outcome: Outcome): (r: Slots)
    ensures r != before ==> outcome.Http? && outcome.statusCode == 200 && DecodeMessageResponse(outcome.body).Success?
  {
    match outcome
    case Http(200, body) =>
      (match DecodeMessageResponse(body)
       case Success(r) => Slots(Items(r.data.artists), Items(r.data.albums), TrackItems(screen, r.data.tracks))
       case Failure(_) => before)
    case _ => before
  }

  /** Both screens start with these kinds, only artists checked. */
  const InitialSearchTypes: seq<AudioType> := [
    AudioType("Album", false),
    AudioType("Artist", true),
    AudioType("Track", false)
  ]

  /** A reply that was decoded and applied. */
  predicate Applied(outcome: Outcome) {
    outcome.Http? && outcome.statusCode == 200 && DecodeMessageResponse(outcome.body).Success?
  }

  // ---------------------------------------------------------------------
  // The screen
  // ---------------------------------------------------------------------

  class SearchScreen {
    const screen: Screen
    var searchString: string
    var selectedMarket: string
    var searchTypes: seq<AudioType>
    var isSearchRunning: bool
    var artistData: Option<seq<Artist>>
    var albumData: Option<seq<Album>>
    var trackData: Option<seq<Track>>

    function Results(): Slots
      reads this
    {
      Slots(artistData, albumData, trackData)
    }

    constructor (screen: Screen)
      ensures this.screen == screen
      ensures searchString == "" && selectedMarket == DefaultMarket && searchTypes == InitialSearchTypes
      ensures !isSearchRunning && Results() == Slots(None, None, None)
    {
      this.screen := screen;
      searchString := "";
      selectedMarket := DefaultMarket;
      searchTypes := InitialSearchTypes;
      isSearchRunning := false;
      artistData := None;
      albumData := None;
      trackData := None;
    }

    /**
     * `getResults` up to the request: the busy flag goes up, and if the URL
     * parses the body is built from the current text, market and kinds.
     * The text is not checked; the search button is what stays disabled
     * while it is empty.
     */
    method Begin(urlResolves: bool) returns (request: Option<SearchBody>)
      modifies this
      ensures isSearchRunning == urlResolves
      ensures request == if urlResolves then Some(BuildBody(searchString, selectedMarket, searchTypes)) else None
      ensures Results() == old(Results())
      ensures searchString == old(searchString) && selectedMarket == old(selectedMarket)
      ensures searchTypes == old(searchTypes)
    {
      isSearchRunning := true;
      if !urlResolves {
        isSearchRunning := false;
        return None;
      }
      request := Some(SearchBody(searchString, selectedMarket, SelectedTypes(searchTypes)));
    }

    /** `getResults` from the request on: every path ends with the busy flag down. */
    method Complete(outcome: Outcome)
      modifies this
      ensures !isSearchRunning
      ensures Results() == SlotsAfter(screen, old(Results()), outcome)
      ensures searchString == old(searchString) && selectedMarket == old(selectedMarket)
      ensures searchTypes == old(searchTypes)
    {
      match outcome {
        case EncodeFailed =>
        case TransportError =>
        case NotHttp =>
          isSearchRunning := false;
          return;
        case Http(statusCode, body) =>
          if statusCode != 200 {
            isSearchRunning := false;
            return;
          }
          var decoded := DecodeMessageResponse(body);
          if decoded.Success? {
            var data := decoded.value.data;
            artistData := Items(data.artists);
            albumData := Items(data.albums);
            trackData := TrackItems(screen, data.tracks);
          }
      }
      isSearchRunning := false;
    }

    /** The whole of `getResults`, with the URL check and the reply given. */
    method GetResults(urlResolves: bool, outcome: Outcome) returns (request: Option<SearchBody>)
      modifies this
      ensures !isSearchRunning
      ensures request == if urlResolves then Some(BuildBody(searchString, selectedMarket, searchTypes)) else None
      ensures Results() == if urlResolves then SlotsAfter(screen, old(Results()), outcome) else old(Results())
      ensures searchString == old(searchString) && selectedMarket == old(selectedMarket)
      ensures searchTypes == old(searchTypes)
    {
      request := Begin(urlResolves);
      if request.Some? {
        Complete(outcome);
      }
    }
  }

  // ---------------------------------------------------------------------
  // Properties of the reply handling
  // ---------------------------------------------------------------------

  /** A reply that was not a decodable status-200 reply changes none of the three slots. */
  lemma FailureKeepsSlots(screen: Screen, before: Slots, outcome: Outcome)
    requires !Applied(outcome)
    ensures SlotsAfter(screen, before, outcome) == before
  {
  }

  /**
   * A decoded reply replaces all three slots: artists and albums become the
   * pages' items, and a page the reply lacks empties its slot. Nothing of the
   * slots before is kept.
   */
  lemma SuccessOverwrites(screen: Screen, before: Slots, statusCode: int, body: Json)
    requires Applied(Http(statusCode, body))
    ensures var data := DecodeMessageResponse(body).value.data;
      var after := SlotsAfter(screen, before, Http(statusCode, body));
      && after == SlotsAfter(screen, Slots(None, None, None), Http(statusCode, body))
      && (after.artistData.None? <==> data.artists.None?)
      && (data.artists.Some? ==> after.artistData == Some(data.artists.value.items))
      && (after.albumData.None? <==> data.albums.None?)
      && (data.albums.Some? ==> after.albumData == Some(data.albums.value.items))
      && (after.trackData.None? <==> data.tracks.None?)
  {
  }

  /** The tabbed screen's tracks: the decoded tracks, as many times each, ordered by album name. */
  lemma TabbedTracksSorted(before: Slots, statusCode: int, body: Json)
    requires Applied(Http(statusCode, body))
    requires DecodeMessageResponse(body).value.data.tracks.Some?
    ensures var items := DecodeMessageResponse(body).value.data.tracks.value.items;
      var after := SlotsAfter(Tabbed, before, Http(statusCode, body));
      && after.trackData.Some?
      && multiset(after.trackData.value) == multiset(items)
      && SortedByAlbumName(after.trackData.value)
  {
    SortSortsAndPermutes(DecodeMessageResponse(body).value.data.tracks.value.items);
  }

  /** The plain screen's tracks are the decoded tracks in the server's order. */
  lemma MainTracksInServerOrder(before: Slots, statusCode: int, body: Json)
    requires Applied(Http(statusCode, body))
    ensures SlotsAfter(Main, before, Http(statusCode, body)).trackData
         == Items(DecodeMessageResponse(body).value.data.tracks)
  {
  }

  /**
   * The two screens treat one reply alike, except for the order of the
   * tracks: same artists, same albums, and the same tracks as a multiset.
   */
  lemma ScreensAgree(tabbedBefore: Slots, mainBefore: Slots, outcome: Outcome)
    requires Applied(outcome)
    ensures var t := SlotsAfter(Tabbed, tabbedBefore, outcome);
      var m := SlotsAfter(Main, mainBefore, outcome);
      && t.artistData == m.artistData && t.albumData == m.albumData
      && t.trackData.Some? == m.trackData.Some?
      && (t.trackData.Some? ==> multiset(t.trackData.value) == multiset(m.trackData.value))
  {
    var data := DecodeMessageResponse(outcome.body).value.data;
    if data.tracks.Some? {
      SortSortsAndPermutes(data.tracks.value.items);
    }
  }

  /**
   * All or nothing: one album in the reply without a release date leaves
   * every slot as it was, even if the reply's other pages are well formed.
   */
  lemma BadAlbumKeepsSlots(screen: Screen, before: Slots, ms: map<string, Json>, i: nat)
    requires "data" in ms && ms["data"].JObject?
    requires "albums" in ms["data"].fields && ms["data"].fields["albums"].JObject?
    requires "items" in ms["data"].fields["albums"].fields
    requires ms["data"].fields["albums"].fields["items"].JArray?
    requires i < |ms["data"].fields["albums"].fields["items"].elems|
    requires ms["data"].fields["albums"].fields["items"].elems[i].JObject?
    requires "release_date" !in ms["data"].fields["albums"].fields["items"].elems[i].fields
    ensures SlotsAfter(screen, before, Http(200, JObject(ms))) == before
  {
    MessageResponseProperties.AlbumWithoutReleaseDateFailsEnvelope(ms, i);
  }

  /** With the starting settings, a search sends the text as typed, market "US" and only "artist". */
  lemma InitialRequest(searchString: string)
    ensures BuildBody(searchString, DefaultMarket, InitialSearchTypes) == SearchBody(searchString, "US", ["artist"])
    ensures DefaultMarket in set m | m in KnownMarkets :: m.Id()
  {
    LowerIs("Artist", "artist");
    assert SelectedTypes(InitialSearchTypes[2..]) == [];
    assert SelectedTypes(InitialSearchTypes[1..]) == ["artist"];
    assert KnownMarkets[0].Id() == DefaultMarket;
  }
}
