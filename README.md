# SpotifyCatalog, modelled in Dafny

SpotifyCatalog is a SwiftUI app that searches a Spotify catalogue through a
backend. The user types a search text, picks a market and the entity kinds
to search for (album, artist, track, ...), and the app POSTs a
`SpotifySearchBody` to the backend. It decodes the `MessageResponse` reply
into lists of artists, albums and tracks and shows them. It has two screens:

- `MainView` shows the results as three stacked lists.
- `TabbedView` shows them as three pages under a tab bar whose underline
  follows the scrolled page. There, tracks are sorted by album name, and the
  track cards can be spun, flipped and given a details panel. The spin
  angle, the flip flag and the details flag belong to the screen and are
  shared by every track card, so one tap spins or flips all cards at once.

The model covers the sequential logic under the layout:

- **Interpolation** (`interpolation.dfy`): `CGFloat.interpolate`, the
  piecewise-linear lookup the tab bar's underline uses. It is a recursive
  specification plus the source's loop, proved equal to it. Lemmas cover
  clamping below and above the inputs, exactness at the knots, staying
  inside each segment and inside the output range, and the tab bar's
  index inputs.
- **Tab synchronisation** (`tab_sync.dfy`): a class holding `activeTab`,
  `tabBarScrollState`, `mainViewScrollState`, `progress` and the measured
  tabs. Its methods are the tab tap, the content page's change handler,
  the ignored tab-bar setter and the measurements, specified by functions
  on a `SyncState` value. A tap's state is a fixed point of the change
  handler, so the two scroll views cannot feed each other.
- **Flip and details** (`flip_detail.dfy`): a class `TrackCards` holding
  the screen's `rotationAngle`, `showDetails` and `isTrackFlipped`, which
  every track card reads and writes.
  - The delayed details toggle of a front tap is an explicit later step
    (`pendingToggles`).
  - The angle stays a whole number of turns.
  - The card and `FlipView` opacity rules are stated as functions.
- **Search** (`search.dfy`): `getResults` of both screens, as one class
  whose `screen` constant selects the variant. The network is replaced by
  an abstract `Outcome`.
  - The busy flag is down after every exit path.
  - A reply that is not a decodable status-200 reply leaves all three
    slots as they were.
  - A decoded reply replaces all three. The tabbed screen's tracks are
    sorted by album name (proved sorted, and a permutation of the decoded
    list); the main screen keeps the server's order.
- **Request body** (`spotify_search.dfy`): `SpotifySearchBody`, its JSON
  encoding and decoding with a round trip, and how the screens build it
  from the checked kinds.
- **Entity kinds and markets** (`audio_type.dfy`, `market.dfy`):
  - `AudioType.id` is the name, and `spotifyType` is the lower-cased name.
  - `toggleCheck(for:)` flips one entry in place; it is proved to be its
    own inverse.
  - The static market list has unique two-letter codes, among them the
    default "US".
- **Response decoding** (`json.dfy`, `spotify_data.dfy`,
  `message_response.dfy`): Swift's synthesised `Codable` decoding, from a
  parsed JSON value into the DTO records, with these rules:
  - A missing non-optional key gives `KeyNotFound`.
  - `null` for a non-optional property gives `ValueNotFound`.
  - A missing or `null` optional property gives nil.
  - A wrong JSON type gives `TypeMismatch`.
  - An `Int` that is not an integral 64-bit number gives `DataCorrupted`.
  - Properties are decoded in declaration order, so the first failing one
    is the error reported. Unknown keys are ignored.
  - The `CodingKeys` tables are modelled with their string round trip.
  - The `SpotifyData` protocol (a name and optional images, for artists
    and albums only) is `SpotifyItem`.
- **Support modules**: `wrappers.dfy` holds `Option` and `Result`.
  `text.dfy` holds ASCII `lowercased()` and the string order used by the
  sort.

Two behaviours of the code are worth stating outright:

- A kind missing from a decoded reply clears its slot to nil; earlier
  results are not kept (`SearchScreens.SuccessOverwrites`).
- `getResults` never checks the search text; only the search button is
  disabled while the text is empty (`SearchScreens.SearchScreen.Begin`
  builds the body from any text, the empty one included).

## Model

| member | source | states |
|---|---|---|
| Interpolation.InterpolateLoop | SpotifyCatalog/TabbedView.swift:492-515 | the source's loop, with its early returns, returns exactly the recursive specification `Interpolate`; it needs one input, an output per input, and a second input once `x` is past the first (the `1...length` range traps otherwise) |
| Interpolation.BelowFirstInput | SpotifyCatalog/TabbedView.swift:497 | for `x <= inputRange[0]` the result is `outputRange[0]` |
| Interpolation.AbovePastInputs | SpotifyCatalog/TabbedView.swift:499-514 | for `x` above every input the loop finds no segment and the result is `outputRange[length]` |
| Interpolation.AboveLastInput | SpotifyCatalog/TabbedView.swift:499-514 | with strictly increasing inputs, `x` past the last input is enough for `outputRange[length]` |
| Interpolation.Knot | SpotifyCatalog/TabbedView.swift:499-510 | with strictly increasing inputs, `x == inputRange[i]` yields exactly `outputRange[i]` |
| Interpolation.Segment | SpotifyCatalog/TabbedView.swift:499-510 | with strictly increasing inputs, `x` in (`inputRange[i-1]`, `inputRange[i]`] yields a value between `outputRange[i-1]` and `outputRange[i]` |
| Interpolation.LerpBetween | SpotifyCatalog/TabbedView.swift:506-508 | the linear formula on a segment of positive width stays between the segment's two outputs |
| Interpolation.WithinOutputRange | SpotifyCatalog/TabbedView.swift:492-515 | for any inputs the source accepts, the result lies between the smallest and the largest output in use; increasing inputs are not needed, since the segment chosen always has positive width and so no division by zero happens |
| Interpolation.IndexRange | SpotifyCatalog/TabbedView.swift:475 | the tab bar's input range holds the tab indices `0, 1, ..., n-1` as reals |
| Interpolation.IndexRangeIncreasing | SpotifyCatalog/TabbedView.swift:475 | the index inputs are strictly increasing |
| Interpolation.IndexRangeSegment | SpotifyCatalog/TabbedView.swift:475-479 | over tab indices every denominator is 1: between tab `i-1` and tab `i` the value is `y[i-1] + (y[i]-y[i-1]) * (progress - (i-1))` |
| TabSync.TabBar.constructor | SpotifyCatalog/TabbedView.swift:35-43 | three tabs (artists, albums, tracks) with zero size, active tab artists, both scroll positions nil, progress 0 |
| TabSync.TabBar.TapTab | SpotifyCatalog/TabbedView.swift:441-446 | a tap on tab `t` sets `activeTab`, `tabBarScrollState` and `mainViewScrollState` to `t` and changes nothing else |
| TabSync.TabBar.OnMainViewScrollChange | SpotifyCatalog/TabbedView.swift:285-291 | a non-nil new page `v` sets `tabBarScrollState` and `activeTab` to `v`; nil changes nothing |
| TabSync.TabBar.ScrollContentTo | SpotifyCatalog/TabbedView.swift:282-291 | scrolling the content writes `mainViewScrollState` and runs the change handler only when the value changed |
| TabSync.TabBar.SetTabBarScrollPosition | SpotifyCatalog/TabbedView.swift:464-467 | writes through the tab bar's scroll-position binding change nothing |
| TabSync.TabBar.UpdateProgress | SpotifyCatalog/TabbedView.swift:278-280 | the content's scroll report sets `progress` and nothing else |
| TabSync.TabBar.MeasureTab | SpotifyCatalog/TabbedView.swift:456-459 | a tab label's measurement sets that tab's width and left edge only, keeping the three tabs in order |
| TabSync.TabBar.IndicatorWidth | SpotifyCatalog/TabbedView.swift:475-483 | the underline's width is the first tab's width at or before page 0, exactly tab `k`'s width on page `k`, and never outside the range of the tab widths |
| TabSync.TabBar.IndicatorPosition | SpotifyCatalog/TabbedView.swift:475-484 | the underline's offset is the first tab's left edge at or before page 0, exactly tab `k`'s left edge on page `k`, and never outside the range of the left edges |
| TabSync.TapIsFixedPoint | SpotifyCatalog/TabbedView.swift:285-291 | the change handler a tap on `t` triggers (new page `t`) leaves the tapped state unchanged: no feedback loop |
| TabSync.TapSetsAllSlots | SpotifyCatalog/TabbedView.swift:441-446 | after a tap all three slots name the tapped tab, and the tab bar agrees with the active tab |
| TabSync.PageChangeEffect | SpotifyCatalog/TabbedView.swift:285-291 | nil changes nothing; a page `v` makes the active tab `v` and the tab bar agree with it, leaves the content slot alone, and handling it twice equals once |
| TabSync.SyncedIsKept | SpotifyCatalog/TabbedView.swift:285-291 | once the tab bar shows the active tab, taps and page changes keep it so |
| TabSync.RawValuesDistinct | SpotifyCatalog/TabbedView.swift:520-524 | the three tabs have distinct labels |
| TabSync.KnotOfIndexRange | SpotifyCatalog/TabbedView.swift:475-479 | on a whole page number `p` the interpolated value is the `p`-th output |
| FlipDetail.TrackCards.constructor | SpotifyCatalog/TabbedView.swift:29-31 | angle 0, details hidden, card not flipped, no toggle pending |
| FlipDetail.TrackCards.FrontTap | SpotifyCatalog/TabbedView.swift:177-185 | the front tap adds exactly 360 degrees, keeping the angle a whole number of turns, and schedules one details toggle |
| FlipDetail.TrackCards.DeliverDelayedToggle | SpotifyCatalog/TabbedView.swift:180-184 | the scheduled step toggles `showDetails` and nothing else |
| FlipDetail.FrontTapThenToggle | SpotifyCatalog/TabbedView.swift:177-185 | a front tap with its delayed step done turns the card a full turn and inverts `showDetails` |
| FlipDetail.TrackCards.ToggleFlip | SpotifyCatalog/TabbedView.swift:337-344 | the `inout` flag comes back toggled exactly once and `showDetails` is true |
| FlipDetail.TrackCards.TapCard | SpotifyCatalog/TabbedView.swift:191-193 | a card tap flips `isTrackFlipped`, shows details, and leaves the card half transparent exactly when it is now unflipped |
| FlipDetail.TrackCards.Close | SpotifyCatalog/TabbedView.swift:321-323 | the Close button toggles `showDetails` and nothing else |
| FlipDetail.AddTurn | SpotifyCatalog/TabbedView.swift:179 | adding 360 to a whole number of turns gives a whole number of turns |
| FlipDetail.CardOpacity | SpotifyCatalog/TabbedView.swift:190 | the card's opacity is 0.5 if and only if details show over an unflipped card, and 1 otherwise |
| FlipDetail.OneFaceVisible | SpotifyCatalog/TabbedView.swift:566-572 | `FlipView` shows exactly one face: front opacity 1 when not flipped, back opacity 1 when flipped, summing to 1 |
| SearchScreens.SearchScreen.constructor | SpotifyCatalog/TabbedView.swift:12-25 | empty text, market "US", kinds album, artist (checked) and track, not busy, no results |
| SearchScreens.SearchScreen.Begin | SpotifyCatalog/TabbedView.swift:346-358 | the busy flag goes up, and goes down again only if the URL does not parse; otherwise the body is the text and market as they are plus the codes of the checked kinds, the empty text included |
| SearchScreens.SearchScreen.Complete | SpotifyCatalog/TabbedView.swift:360-385 | every exit path (encode or transport error, non-HTTP reply, status other than 200, decode error, success) ends with the busy flag down and the slots as `SlotsAfter` gives them |
| SearchScreens.SearchScreen.GetResults | SpotifyCatalog/MainView.swift:215-255 | the whole call: busy flag down at the end; the body is sent only when the URL parses, and only then can the slots change |
| SearchScreens.FailureKeepsSlots | SpotifyCatalog/MainView.swift:229-252 | a failed encode, transport error, non-HTTP reply, status other than 200 or failed decode changes none of the three slots |
| SearchScreens.SuccessOverwrites | SpotifyCatalog/TabbedView.swift:376-379 | a decoded reply replaces all three slots independently of their old values; artists and albums become the pages' items, and a page the reply lacks clears its slot to nil |
| SearchScreens.TabbedTracksSorted | SpotifyCatalog/TabbedView.swift:379 | the tabbed screen's tracks are a permutation of the decoded tracks, ordered non-decreasing by album name, `""` for a track without an album |
| SearchScreens.MainTracksInServerOrder | SpotifyCatalog/MainView.swift:248 | the main screen's tracks are the decoded tracks in the server's order |
| SearchScreens.ScreensAgree | SpotifyCatalog/MainView.swift:246-248 | both screens take the same artists and albums from a reply, and the same tracks up to order |
| SearchScreens.BadAlbumKeepsSlots | SpotifyCatalog/TabbedView.swift:376-379 | a status-200 reply with one album lacking `release_date` leaves every slot unchanged: decoding is all or nothing |
| SearchScreens.InitialRequest | SpotifyCatalog/MainView.swift:14-25 | with the starting settings the body is the text as typed, market "US" (a known market) and the single kind "artist" |
| TrackSort.SortSortsAndPermutes | SpotifyCatalog/TabbedView.swift:379 | sorting by album name gives a list ordered by `<` with the same tracks, each as many times |
| TrackSort.InsertSorted | SpotifyCatalog/TabbedView.swift:379 | inserting a track into a list sorted by album name keeps it sorted |
| TrackSort.InsertPermutes | SpotifyCatalog/TabbedView.swift:379 | inserting adds exactly that track to the multiset |
| SpotifySearch.BodyRoundTrip | SpotifyCatalog/DTOs/SpotifySearch.swift:10-14 | decoding an encoded body gives back the same query, market and kinds list, in order |
| SpotifySearch.EncodeBody | SpotifyCatalog/DTOs/SpotifySearch.swift:10-14 | the encoded body is an object with exactly the keys `query`, `market` and `type` |
| SpotifySearch.BodyRequiresAllKeys | SpotifyCatalog/DTOs/SpotifySearch.swift:10-14 | a body missing any of the three keys does not decode |
| SpotifySearch.SelectedTypesMembers | SpotifyCatalog/TabbedView.swift:358 | a code is sent if and only if some checked kind has it, and no more codes than kinds are sent |
| SpotifySearch.SelectedTypesAppend | SpotifyCatalog/MainView.swift:227 | filtering and mapping distributes over concatenation, so the codes keep the kinds' array order |
| SpotifySearch.SelectedTypesEmpty | SpotifyCatalog/TabbedView.swift:358 | the kinds list is empty (and still sent) exactly when nothing is checked |
| SpotifySearch.SelectedTypesLowerCase | SpotifyCatalog/TabbedView.swift:358 | every sent code is already lower case |
| SpotifySearch.BuildBodyContents | SpotifyCatalog/TabbedView.swift:358 | the body carries the text and market unmodified, exactly the checked kinds' codes, and survives an encode and decode |
| AudioTypes.Registry.constructor | SpotifyCatalog/DTOs/AudioType.swift:17-25 | the registry starts as `knownTypes` |
| AudioTypes.Registry.ToggleCheck | SpotifyCatalog/DTOs/AudioType.swift:27-32 | `toggleCheck(for:)` searches for the first entry with the item's id and flips it in place, giving `Toggled` of the old array |
| AudioTypes.FirstIndex | SpotifyCatalog/DTOs/AudioType.swift:29 | the result is the first index whose id matches, or none when no entry matches |
| AudioTypes.Toggled | SpotifyCatalog/DTOs/AudioType.swift:29-30 | same length and names; only the first entry with the id has its check flipped |
| AudioTypes.ToggleTwice | SpotifyCatalog/DTOs/AudioType.swift:27-32 | toggling the same item twice restores the array |
| AudioTypes.ToggleUnknownId | SpotifyCatalog/DTOs/AudioType.swift:29 | an id no entry carries leaves the array unchanged |
| AudioTypes.ToggleDistinct | SpotifyCatalog/DTOs/AudioType.swift:29-30 | with distinct names, exactly the entry named by the id is flipped |
| AudioTypes.FirstIndexDependsOnNamesOnly | SpotifyCatalog/DTOs/AudioType.swift:29 | the search looks at names only, so flipping checks does not move it |
| AudioTypes.KnownTypesFacts | SpotifyCatalog/DTOs/AudioType.swift:12-25 | seven kinds with distinct names, and only "Artist" starts checked |
| AudioTypes.KnownSpotifyType | SpotifyCatalog/DTOs/AudioType.swift:15-25 | each known kind's code is its lower-cased name, e.g. "Artist" gives "artist" |
| Text.Lower | SpotifyCatalog/DTOs/AudioType.swift:15 | `lowercased()` keeps the length and lowers each capital letter, leaving other characters alone |
| Text.LowerIdempotent | SpotifyCatalog/DTOs/AudioType.swift:15 | lowering twice is lowering once |
| Text.LessOrEqualTransitive | SpotifyCatalog/TabbedView.swift:379 | the order the sort uses is transitive |
| Text.LessOrEqualTotal | SpotifyCatalog/TabbedView.swift:379 | any two album names are comparable |
| Markets.KnownMarketsFacts | SpotifyCatalog/DTOs/Market.swift:14-24 | seven markets, every code two capital letters, ids unique, and the first is the default "US" |
| SpotifyData.ArtistCodingKey.FromString | SpotifyCatalog/DTOs/SpotifyData.swift:26-37 | a JSON key maps to an artist property only when that property's key is this string |
| SpotifyData.ArtistCodingKeysRoundTrip | SpotifyCatalog/DTOs/SpotifyData.swift:26-37 | each artist property's key maps back to it, so the key table is injective |
| SpotifyData.AlbumCodingKey.FromString | SpotifyCatalog/DTOs/SpotifyData.swift:62-77 | a JSON key maps to an album property only when that property's key is this string |
| SpotifyData.AlbumCodingKeysRoundTrip | SpotifyCatalog/DTOs/SpotifyData.swift:62-77 | each album property's key (e.g. `release_date` for `releaseDate`) maps back to it |
| SpotifyData.TrackCodingKey.FromString | SpotifyCatalog/DTOs/SpotifyData.swift:105-125 | a JSON key maps to a track property only when that property's key is this string |
| SpotifyData.TrackCodingKeysRoundTrip | SpotifyCatalog/DTOs/SpotifyData.swift:105-125 | each track property's key maps back to it |
| SpotifyDataProperties.ArtistMissingRequired | SpotifyCatalog/DTOs/SpotifyData.swift:39-48 | an artist object without `id` or without `name` does not decode |
| SpotifyDataProperties.ArtistIdAndName | SpotifyCatalog/DTOs/SpotifyData.swift:43-45 | a decoded artist's id and name are the strings under `id` and `name` |
| SpotifyDataProperties.ArtistFromIdAndName | SpotifyCatalog/DTOs/SpotifyData.swift:39-48 | string `id` and `name` with no optional key present decode to an artist with every other property nil, other keys ignored |
| SpotifyDataProperties.ArtistNotAnObject | SpotifyCatalog/DTOs/SpotifyData.swift:25 | `null` is a missing value and any other non-object a type mismatch |
| SpotifyDataProperties.TrackIdAndName | SpotifyCatalog/DTOs/SpotifyData.swift:136-139 | a decoded track's id and name are the strings under `id` and `name` |
| SpotifyDataProperties.TrackFromIdAndName | SpotifyCatalog/DTOs/SpotifyData.swift:127-145 | a track with only string `id` and `name` among its keys decodes with `album == nil` and every other property nil |
| SpotifyDataProperties.AlbumRequiredFields | SpotifyCatalog/DTOs/SpotifyData.swift:78-91 | a decoded album found all eleven required keys, each holding the value decoded from it: the strings and `total_tracks` as stored, `artists` and `external_urls` decoding to the album's artists and URL |
| SpotifyDataProperties.AlbumFromRequired | SpotifyCatalog/DTOs/SpotifyData.swift:78-91 | the required keys alone, each well typed (any artist list and URL object that decode) and with no optional key present, decode to exactly those values with `availableMarkets`, `images` and `restrictions` nil |
| SpotifyDataProperties.AlbumWithoutReleaseDate | SpotifyCatalog/DTOs/SpotifyData.swift:86 | an album without `release_date` does not decode |
| SpotifyDataProperties.PageMissingRequired | SpotifyCatalog/DTOs/SpotifyData.swift:15-23 | a page without `href`, `items`, `limit`, `offset` or `total` does not decode |
| SpotifyDataProperties.ArtistRequiredKeysOfTable | SpotifyCatalog/DTOs/SpotifyData.swift:26-48 | dropping the table's key of `id` or `name` makes the artist fail, so decoder and `CodingKeys` agree on them |
| SpotifyDataProperties.AlbumRequiredKeysOfTable | SpotifyCatalog/DTOs/SpotifyData.swift:62-91 | dropping the table's key of any of the eleven non-optional album properties makes the album fail |
| SpotifyDataProperties.TrackRequiredKeysOfTable | SpotifyCatalog/DTOs/SpotifyData.swift:105-145 | dropping the table's key of `id` or `name` makes the track fail |
| SpotifyDataProperties.ExternalUrlNeedsSpotify | SpotifyCatalog/DTOs/SpotifyData.swift:154-156 | an `ExternalUrl` without `spotify` fails with a missing-key error naming `spotify` |
| SpotifyDataProperties.ExternalUrlFromSpotify | SpotifyCatalog/DTOs/SpotifyData.swift:154-156 | a string under `spotify` decodes to that URL, other keys ignored |
| SpotifyDataProperties.RestrictionNeedsReason | SpotifyCatalog/DTOs/SpotifyData.swift:158-160 | a `Restriction` without `reason` fails with a missing-key error naming `reason` |
| SpotifyDataProperties.RestrictionFromReason | SpotifyCatalog/DTOs/SpotifyData.swift:158-160 | a string under `reason` decodes to that restriction |
| SpotifyDataProperties.FollowersNeedTotal | SpotifyCatalog/DTOs/SpotifyData.swift:162-165 | `Followers` without `total` fail; when `href` is absent, null or a string the error names `total` |
| SpotifyDataProperties.FollowersFromTotal | SpotifyCatalog/DTOs/SpotifyData.swift:162-165 | a 64-bit integer `total` with `href` missing or null decodes with `href` nil |
| SpotifyDataProperties.ImageNeedsUrl | SpotifyCatalog/DTOs/SpotifyData.swift:167-171 | an image without `url` fails with a missing-key error naming `url` |
| SpotifyDataProperties.ImageFromUrl | SpotifyCatalog/DTOs/SpotifyData.swift:167-171 | a `url` string with `height` and `width` missing or null decodes with both sizes nil |
| SpotifyDataProperties.ExternalIDAllOptional | SpotifyCatalog/DTOs/SpotifyData.swift:148-152 | an `ExternalID` object whose keys are all missing or null decodes with every id nil |
| SpotifyData.DecodeExternalUrl | SpotifyCatalog/DTOs/SpotifyData.swift:154-156 | succeeds exactly on an object holding a string under `spotify`, and yields that string; null is a missing value, any other non-object a type mismatch |
| SpotifyData.DecodeRestriction | SpotifyCatalog/DTOs/SpotifyData.swift:158-160 | succeeds exactly on an object holding a string under `reason`, and yields that string |
| SpotifyData.DecodeFollowers | SpotifyCatalog/DTOs/SpotifyData.swift:162-165 | a decoded value's `total` is the 64-bit integer stored under `total`, and `href` is nil exactly when its key is missing or null |
| SpotifyData.DecodeImage | SpotifyCatalog/DTOs/SpotifyData.swift:167-171 | a decoded image's `url` is the string stored under `url`; each size is nil exactly when its key is missing or null |
| SpotifyData.DecodeExternalID | SpotifyCatalog/DTOs/SpotifyData.swift:148-152 | succeeds exactly on an object whose `isrc`, `ean` and `upc` are each missing, null or a string |
| SpotifyData.DecodeArtist | SpotifyCatalog/DTOs/SpotifyData.swift:25-49 | a non-object is rejected (null as a missing value); a decoded artist's id and name are the strings stored under `id` and `name` |
| SpotifyData.DecodeAlbum | SpotifyCatalog/DTOs/SpotifyData.swift:61-92 | a non-object is rejected; a decoded album's id, name and release date are the strings stored under `id`, `name` and `release_date` |
| SpotifyData.DecodeTrack | SpotifyCatalog/DTOs/SpotifyData.swift:104-146 | a non-object is rejected; a decoded track's id and name are the strings stored under `id` and `name` |
| SpotifyData.DecodePage | SpotifyCatalog/DTOs/SpotifyData.swift:15-23 | a non-object is rejected; a decoded page found an array under `items` and holds one item per element |
| MessageResponses.DecodeMetadata | SpotifyCatalog/DTOs/MessageResponse.swift:15-18 | a decoded `meta` holds the strings stored under `message` and `status` |
| MessageResponses.DecodeResponseData | SpotifyCatalog/DTOs/MessageResponse.swift:20-24 | a non-object is rejected; an object whose three page keys are all missing or null decodes with all three pages nil |
| MessageResponses.DecodeMessageResponse | SpotifyCatalog/DTOs/MessageResponse.swift:10-13 | a decoded envelope found `meta` and `data`, and each decodes to the envelope's part |
| SpotifySearch.DecodeBody | SpotifyCatalog/DTOs/SpotifySearch.swift:10-14 | a decoded body holds the strings under `query` and `market` and the string list under `type` |
| SpotifySearch.SelectedTypes | SpotifyCatalog/TabbedView.swift:358 | no more codes than kinds, and exactly as many when every kind is checked |
| SpotifySearch.BuildBody | SpotifyCatalog/MainView.swift:227 | the body keeps the text and market as they are, sends at most one code per kind, and survives an encode and decode |
| SearchScreens.SlotsAfter | SpotifyCatalog/TabbedView.swift:360-385 | the slots change only on an HTTP status-200 reply that decodes |
| TabSync.Tapped | SpotifyCatalog/TabbedView.swift:441-446 | after a tap the active tab and the content page are the tapped tab, and the tab bar agrees |
| TabSync.PageChanged | SpotifyCatalog/TabbedView.swift:285-291 | the content slot is left alone; nil changes nothing; a page `v` becomes the active tab and the tab bar follows |
| Interpolation.Interpolate | SpotifyCatalog/TabbedView.swift:492-515 | clamps to the first output at or below the first input, and to the last output past every input |
| TrackSort.SortByAlbumName | SpotifyCatalog/TabbedView.swift:379 | the sorted list holds the same tracks, each as many times |
| AudioTypes.AudioType.Id | SpotifyCatalog/DTOs/AudioType.swift:14 | an entry's identity is its name |
| AudioTypes.AudioType.SpotifyType | SpotifyCatalog/DTOs/AudioType.swift:15 | the code has the name's length, no capital letter, and keeps every character that was not a capital |
| Markets.Market.Id | SpotifyCatalog/DTOs/Market.swift:14 | a market's identity is its code |
| SpotifyDataProperties.EmptyPage | SpotifyCatalog/DTOs/SpotifyData.swift:15-23 | a page with empty `items` and `next`/`previous` missing or null decodes to an empty item list with both links nil |
| SpotifyDataProperties.PageItemsAllDecode | SpotifyCatalog/DTOs/SpotifyData.swift:15-23 | a decoded page has one item per JSON element, each decoded from its element |
| MessageResponseProperties.EnvelopeRequiresMetaAndData | SpotifyCatalog/DTOs/MessageResponse.swift:10-13 | an envelope without `meta` or without `data` does not decode |
| MessageResponseProperties.MetadataStrings | SpotifyCatalog/DTOs/MessageResponse.swift:15-18 | a decoded `meta` holds the strings under `message` and `status` |
| MessageResponseProperties.ResponseDataFacets | SpotifyCatalog/DTOs/MessageResponse.swift:20-24 | each of `albums`, `artists` and `tracks` is nil exactly when its key is missing or null, and otherwise the page decoded from that key |
| MessageResponseProperties.OnlyArtists | SpotifyCatalog/DTOs/MessageResponse.swift:20-24 | a `data` object with only an artist page decodes with albums and tracks nil |
| MessageResponseProperties.EmptyArtistPage | SpotifyCatalog/DTOs/MessageResponse.swift:21-23 | a present artist page with empty `items` is an empty list, not nil |
| MessageResponseProperties.PageFailsOnBadItem | SpotifyCatalog/DTOs/MessageResponse.swift:21-23 | one item that fails makes its page fail |
| MessageResponseProperties.DataFailsOnBadPage | SpotifyCatalog/DTOs/MessageResponse.swift:20-24 | a present album, artist or track page that fails makes `data` fail |
| MessageResponseProperties.EnvelopeFailsOnBadData | SpotifyCatalog/DTOs/MessageResponse.swift:12 | a `data` block that fails makes the envelope fail |
| MessageResponseProperties.AlbumWithoutReleaseDateFailsEnvelope | SpotifyCatalog/DTOs/MessageResponse.swift:21-23 | one album lacking `release_date` anywhere in the album page fails the whole envelope |
| Json.AsInt | SpotifyCatalog/DTOs/SpotifyData.swift:18 | an `Int` decodes exactly from an integral JSON number within 64-bit range |
| Json.AsString | SpotifyCatalog/DTOs/SpotifyData.swift:16 | a `String` decodes exactly from a JSON string, to that string |
| Json.AsBool | SpotifyCatalog/DTOs/SpotifyData.swift:132 | a `Bool` decodes exactly from a JSON boolean, to that value |
| Json.AsArray | SpotifyCatalog/DTOs/SpotifyData.swift:17 | an array property decodes exactly when it is a JSON array whose every element decodes, one value per element |
| SpotifySearch.StringsRoundTrip | SpotifyCatalog/DTOs/SpotifySearch.swift:13 | the encoded kinds list decodes back to the same list |
| Text.LowerHasNoCapitals | SpotifyCatalog/DTOs/AudioType.swift:15 | a lower-cased string has no capital letter left |
| Json.DecodeEach | SpotifyCatalog/DTOs/SpotifyData.swift:17 | an array decodes exactly when every element does, giving one value per element in order |

## Left out

- SwiftUI layout, styling, animations (`withAnimation`), `AsyncImage` phases,
  3D rotation effects, `DisplayDataView` and `SearchResultsImageView`: these
  are rendering, not logic.
- `SearchSettingsView`: a form over the market and the kinds. Its one
  update, flipping an entry's check, is the in-place flip modelled for
  `AudioType.toggleCheck`.
- `URLSession`, URL construction, HTTP headers, `print` logging and
  `decodeUnknownData`: I/O. URL parsing becomes the `urlResolves`
  parameter, and the reply becomes the `Outcome` parameter.
- JSON text: the model decodes an already-parsed value tree. Objects are
  maps, so duplicate keys in the text are not represented.
- Decoding errors carry only their kind and the missing key, not Swift's
  coding path or debug description.
- `Task`/`async` scheduling, overlapping searches and the timing of
  `asyncAfter`: concurrency. A search is split into `Begin` and
  `Complete`, and a front tap's delayed toggle is a separate step.
- `CGFloat` rounding, infinities and NaN: all values are exact reals.
  The geometry behind `progress = -rect.minX / size.width` and the label
  measurements is not modelled; `UpdateProgress` and `MeasureTab` take
  their values as given.
- `String.lowercased()` is ASCII lower-casing, and Swift's `<` on strings
  is lexicographic order of characters. Unicode case mapping and
  collation are not modelled.
- SearchScreens.TabbedTracksSorted: does not say how tracks with equal
  album names are ordered, because Swift's `sorted(by:)` is not
  guaranteed stable. The model sorts by insertion, and only sortedness and
  permutation are stated.
- SearchScreens.SearchScreen.Complete: `JSONEncoder` cannot fail on a body
  of strings, but the encode-failure path is kept as an outcome; it
  behaves like every other caught error.
- SpotifyDataProperties.ArtistFromIdAndName: gives decoding success only
  for objects with no optional key present. An object whose optional
  members are present and well formed also decodes, but no lemma states
  that in general.
- SpotifyDataProperties.TrackFromIdAndName: the same restriction as for
  artists.
- SpotifyData.DecodeArtist: the decoders spell each JSON key as a string
  literal rather than reading it from the `CodingKeys` datatypes. The
  literals agree with the tables, but the proved link covers only the
  required keys (`ArtistRequiredKeysOfTable` and its album and track
  twins). It is not proved that the optional keys match the tables, or
  that keys outside a table are ignored. The same holds for
  `SpotifyData.DecodeAlbum` and `SpotifyData.DecodeTrack`.
- The `SpotifyData` protocol is modelled as `SpotifyItem` with `Name()`
  and `Images()`; no property is stated about it beyond its definition.
