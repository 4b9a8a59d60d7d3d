/**
 * The searchable entity kinds (`AudioType`): a display name, whether the
 * user has checked it, and the code the search endpoint expects.
 */
module AudioTypes {
  import opened Wrappers
  import opened Text

  datatype AudioType = AudioType(name: string, isChecked: bool) {

    /** `Identifiable` conformance: an entry is identified by its name. */
    function Id(): (r: string)
      ensures r == name
    {
      name
    }

    /** The code sent in a search request. */
    function SpotifyType(): (r: string)
      ensures |r| == |name|
      ensures forall i :: 0 <= i < |r| ==> !IsUpper(r[i])
      ensures forall i :: 0 <= i < |r| && !IsUpper(name[i]) ==> r[i] == name[i]
    {
      Lower(name)
    }
  }

  /** `AudioType.knownTypes` as first initialised; `isChecked` defaults to false. */
  const KnownTypes: seq<AudioType> := [
    AudioType("Album", false),
    AudioType("Artist", true),
    AudioType("Playlist", false),
    AudioType("Track", false),
    AudioType("Show", false),
    AudioType("Episode", false),
    AudioType("Audiobook", false)
  ]

  /** `firstIndex(where: { $0.id == id })`. */
  function FirstIndex(types: seq<AudioType>, id: string): (r: Option<nat>)
    ensures r.None? <==> forall k :: 0 <= k < |types| ==> types[k].Id() != id
    ensures r.Some? ==> r.value < |types| && types[r.value].Id() == id
    ensures r.Some? ==> forall k :: 0 <= k < r.value ==> types[k].Id() != id
  {
    if types == [] then None
    else if types[0].Id() == id then Some(0)
    else match FirstIndex(types[1..], id)
      case None => None
      case Some(k) => Some(k + 1)
  }

  /** The array `toggleCheck(for:)` leaves behind: the first entry with the id has its check flipped. */
  function Toggled(types: seq<AudioType>, id: string): (r: seq<AudioType>)
    ensures |r| == |types|
    ensures forall k :: 0 <= k < |types| ==> r[k].name == types[k].name
    ensures forall k :: 0 <= k < |types| ==>
      r[k].isChecked == (if FirstIndex(types, id) == Some(k) then !types[k].isChecked else types[k].isChecked)
  {
    match FirstIndex(types, id)
    case None => types
    case Some(k) => types[k := types[k].(isChecked := !types[k].isChecked)]
  }

  /** Two sequences of entries with the same names, position by position. */
  predicate SameNames(a: seq<AudioType>, b: seq<AudioType>) {
    |a| == |b| && forall k :: 0 <= k < |a| ==> a[k].name == b[k].name
  }

  lemma {:induction false} FirstIndexDependsOnNamesOnly(a: seq<AudioType>, b: seq<AudioType>, id: string)
    requires SameNames(a, b)
    ensures FirstIndex(a, id) == FirstIndex(b, id)
  {
    if a != [] {
      FirstIndexDependsOnNamesOnly(a[1..], b[1..], id);
    }
  }

  /** Toggling the same entry twice restores the array. */
  lemma ToggleTwice(types: seq<AudioType>, id: string)
    ensures Toggled(Toggled(types, id), id) == types
  {
    var once := Toggled(types, id);
    FirstIndexDependsOnNamesOnly(once, types, id);
  }

  /** An id that no entry carries leaves the array as it was. */
  lemma ToggleUnknownId(types: seq<AudioType>, id: string)
    requires forall k :: 0 <= k < |types| ==> types[k].name != id
    ensures Toggled(types, id) == types
  {
  }

  /** Names are pairwise distinct, so lookup by id finds the one entry with that name. */
  predicate DistinctNames(types: seq<AudioType>) {
    forall i, j :: 0 <= i < j < |types| ==> types[i].name != types[j].name
  }

  /** With distinct names, the toggled entry is exactly the one whose name is the id. */
  lemma ToggleDistinct(types: seq<AudioType>, id: string, k: nat)
    requires DistinctNames(types) && k < |types|
    ensures Toggled(types, id)[k].isChecked == (if types[k].name == id then !types[k].isChecked else types[k].isChecked)
  {
  }

  lemma KnownTypesFacts()
    ensures |KnownTypes| == 7
    ensures DistinctNames(KnownTypes)
    ensures forall k :: 0 <= k < |KnownTypes| ==> (KnownTypes[k].isChecked <==> KnownTypes[k].name == "Artist")
  {
  }

  /** The codes `spotifyType` gives for `KnownTypes`, in the same order. */
  const KnownCodes: seq<string> := ["album", "artist", "playlist", "track", "show", "episode", "audiobook"]

  lemma KnownSpotifyType(k: nat)
    requires k < |KnownTypes|
    ensures KnownTypes[k].SpotifyType() == KnownCodes[k]
  {
    var name := KnownTypes[k].name;
    LowerIs(name, KnownCodes[k]);
  }

  /** The mutable static `AudioType.knownTypes`. */
  class Registry {
    var knownTypes: seq<AudioType>

    constructor ()
      ensures knownTypes == KnownTypes
    {
      knownTypes := KnownTypes;
    }

    /** `toggleCheck(for:)`: the `firstIndex` search, then one in-place flip. */
    method ToggleCheck(item: AudioType)
      modifies this
      ensures knownTypes == Toggled(old(knownTypes), item.Id())
    {
      var index := 0;
      while index < |knownTypes| && knownTypes[index].Id() != item.Id()
        invariant 0 <= index <= |knownTypes|
        invariant forall k :: 0 <= k < index ==> knownTypes[k].Id() != item.Id()
      {
        index := index + 1;
      }
      if index < |knownTypes| {
        knownTypes := knownTypes[index := knownTypes[index].(isChecked := !knownTypes[index].isChecked)];
      }
    }
  }
}
