/**
 * The body of a search request (`SpotifySearchBody`) and how the search
 * screens build it from the search text, the selected market and the
 * checked entity kinds.
 */
module SpotifySearch {
  import opened Wrappers
  import opened Json
  import opened Text
  import opened AudioTypes

  /** No `CodingKeys`: the JSON keys are the property names, and `type` is the kinds list. */
  datatype SearchBody = SearchBody(query: string, market: string, types: seq<string>)

  function EncodeStrings(ss: seq<string>): (r: seq<Json>)
    ensures |r| == |ss|
    ensures forall i :: 0 <= i < |ss| ==> r[i] == JString(ss[i])
  {
    seq(|ss|, i requires 0 <= i < |ss| => JString(ss[i]))
  }

  /** `JSONEncoder().encode`, on the value tree. */
  function EncodeBody(b: SearchBody): (j: Json)
    ensures j.JObject? && j.fields.Keys == {"query", "market", "type"}
  {
    JObject(map["query" := JString(b.query), "market" := JString(b.market), "type" := JArray(EncodeStrings(b.types))])
  }

  /** The synthesised `init(from:)`: three required properties, in declaration order. */
  function DecodeBody(j: Json): (r: Decoded<SearchBody>)
    ensures !j.JObject? ==> r == Failure(if j.JNull? then ValueNotFound else TypeMismatch)
    ensures r.Success? ==> j.JObject? && Lookup(j.fields, "query") == Some(JString(r.value.query))
                                      && Lookup(j.fields, "market") == Some(JString(r.value.market))
                                      && "type" in j.fields && AsStrings(j.fields["type"]) == Success(r.value.types)
  {
    match j
    case JObject(o) =>
      var query := Required(o, "query", AsString);
      var market := Required(o, "market", AsString);
      var types := Required(o, "type", AsStrings);
      if query.Failure? then Failure(query.error)
      else if market.Failure? then Failure(market.error)
      else if types.Failure? then Failure(types.error)
      else Success(SearchBody(query.value, market.value, types.value))
    case JNull => Failure(ValueNotFound)
    case _ => Failure(TypeMismatch)
  }

  /** `filter { $0.isChecked }.map { $0.spotifyType }`. */
  function SelectedTypes(types: seq<AudioType>): (r: seq<string>)
    ensures |r| <= |types|
    ensures |r| == |types| <==> forall k :: 0 <= k < |types| ==> types[k].isChecked
  {
    if types == [] then []
    else (if types[0].isChecked then [types[0].SpotifyType()] else []) + SelectedTypes(types[1..])
  }

  /** The body `getResults` sends: the search text and market as they are, and the checked kinds. */
  function BuildBody(searchString: string, selectedMarket: string, searchTypes: seq<AudioType>): (r: SearchBody)
    ensures r.query == searchString && r.market == selectedMarket
    ensures |r.types| <= |searchTypes|
    ensures DecodeBody(EncodeBody(r)) == Success(r)
  {
    BodyRoundTrip(SearchBody(searchString, selectedMarket, SelectedTypes(searchTypes)));
    SearchBody(searchString, selectedMarket, SelectedTypes(searchTypes))
  }

  // ---------------------------------------------------------------------
  // Properties
  // ---------------------------------------------------------------------

  lemma StringsRoundTrip(ss: seq<string>)
    ensures AsStrings(JArray(EncodeStrings(ss))) == Success(ss)
  {
    var elems := EncodeStrings(ss);
    var r := DecodeEach(elems, AsString);
    assert AsStrings(JArray(elems)) == r;
    assert forall i :: 0 <= i < |elems| ==> AsString(elems[i]).Success?;
    forall i | 0 <= i < |ss| ensures r.value[i] == ss[i] {
      assert AsString(elems[i]) == Success(r.value[i]);
    }
    assert r.value == ss;
  }

  /** Decoding an encoded body gives back the same query, market and kinds, in order. */
  lemma BodyRoundTrip(b: SearchBody)
    ensures DecodeBody(EncodeBody(b)) == Success(b)
  {
    StringsRoundTrip(b.types);
  }

  /** A body object missing one of its three keys does not decode. */
  lemma BodyRequiresAllKeys(ms: map<string, Json>)
    requires "query" !in ms || "market" !in ms || "type" !in ms
    ensures DecodeBody(JObject(ms)).Failure?
  {
  }

  /** Selecting from two runs of entries selects from each, in order. */
  lemma {:induction false} SelectedTypesAppend(a: seq<AudioType>, b: seq<AudioType>)
    ensures SelectedTypes(a + b) == SelectedTypes(a) + SelectedTypes(b)
  {
    if a == [] {
      assert a + b == b;
    } else {
      assert (a + b)[1..] == a[1..] + b;
      SelectedTypesAppend(a[1..], b);
    }
  }

  /** Exactly the codes of checked entries are sent, and never more codes than entries. */
  lemma {:induction false} SelectedTypesMembers(types: seq<AudioType>)
    ensures |SelectedTypes(types)| <= |types|
    ensures forall c :: c in SelectedTypes(types) <==>
      exists k :: 0 <= k < |types| && types[k].isChecked && types[k].SpotifyType() == c
  {
    if types != [] {
      SelectedTypesMembers(types[1..]);
      forall c ensures c in SelectedTypes(types) <==>
        exists k :: 0 <= k < |types| && types[k].isChecked && types[k].SpotifyType() == c
      {
        if c in SelectedTypes(types[1..]) {
          var k :| 0 <= k < |types[1..]| && types[1..][k].isChecked && types[1..][k].SpotifyType() == c;
          assert types[k + 1] == types[1..][k];
        }
        if exists k :: 0 <= k < |types| && types[k].isChecked && types[k].SpotifyType() == c {
          var k :| 0 <= k < |types| && types[k].isChecked && types[k].SpotifyType() == c;
          if k > 0 {
            assert types[1..][k - 1] == types[k];
          }
        }
      }
    }
  }

  /** Nothing checked gives an empty, and still well-formed, kinds list; and only then. */
  lemma {:induction false} SelectedTypesEmpty(types: seq<AudioType>)
    ensures SelectedTypes(types) == [] <==> forall k :: 0 <= k < |types| ==> !types[k].isChecked
  {
    if types != [] {
      SelectedTypesEmpty(types[1..]);
      if forall k :: 0 <= k < |types[1..]| ==> !types[1..][k].isChecked {
        if !types[0].isChecked {
          forall k | 0 <= k < |types| ensures !types[k].isChecked {
            if k > 0 {
              assert types[k] == types[1..][k - 1];
            }
          }
        }
      } else {
        var k :| 0 <= k < |types[1..]| && types[1..][k].isChecked;
        assert types[k + 1].isChecked;
      }
    }
  }

  /** Every sent code is lower-case. */
  lemma {:induction false} SelectedTypesLowerCase(types: seq<AudioType>)
    ensures forall c :: c in SelectedTypes(types) ==> Lower(c) == c
  {
    SelectedTypesMembers(types);
    forall c | c in SelectedTypes(types) ensures Lower(c) == c {
      var k :| 0 <= k < |types| && types[k].isChecked && types[k].SpotifyType() == c;
      LowerIdempotent(types[k].name);
    }
  }

  /**
   * The body carries the search text and the market unmodified, even when the
   * text is empty, and lists the codes of the checked kinds.
   */
  lemma BuildBodyContents(searchString: string, selectedMarket: string, searchTypes: seq<AudioType>)
    ensures var b := BuildBody(searchString, selectedMarket, searchTypes);
      && b.query == searchString && b.market == selectedMarket
      && (forall c :: c in b.types <==>
            exists k :: 0 <= k < |searchTypes| && searchTypes[k].isChecked && searchTypes[k].SpotifyType() == c)
      && DecodeBody(EncodeBody(b)) == Success(b)
  {
    SelectedTypesMembers(searchTypes);
    BodyRoundTrip(BuildBody(searchString, selectedMarket, searchTypes));
  }
}
