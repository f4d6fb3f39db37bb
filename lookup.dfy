/**
 * The name lookups of the pass: `next(...)` and `any(...)` over the fetched
 * records, as functions over sequences. Matching is exact string equality
 * and the first match wins.
 */
module Lookup {
  import opened Wrappers
  import opened ArrRecords

  /** `i` is the position of the first custom format called `name`. */
  predicate FirstFormatAt(formats: seq<CustomFormat>, name: string, i: int)
  {
    0 <= i < |formats| && formats[i].name == name &&
    forall k :: 0 <= k < i ==> formats[k].name != name
  }

  /** `i` is the position of the first quality profile called `name`. */
  predicate FirstProfileAt(profiles: seq<Profile>, name: string, i: int)
  {
    0 <= i < |profiles| && profiles[i].name == name &&
    forall k :: 0 <= k < i ==> profiles[k].name != name
  }

  /** Index of the first custom format called `name`, if any. */
  function FormatIndex(formats: seq<CustomFormat>, name: string): (r: Option<nat>)
    ensures r.Some? ==> FirstFormatAt(formats, name, r.value)
    ensures r.None? <==> forall k :: 0 <= k < |formats| ==> formats[k].name != name
  {
    if formats == [] then None
    else if formats[0].name == name then Some(0)
    else
      match FormatIndex(formats[1..], name)
      case None => None
      case Some(k) => Some(k + 1)
  }

  /**
   * The `id` of the first custom format called `name`, None when there is no
   * such format (or, as `next` would give, when that format's id is null).
   */
  function FormatId(formats: seq<CustomFormat>, name: string): (r: Option<int>)
    ensures (forall k :: 0 <= k < |formats| ==> formats[k].name != name) ==> r.None?
    ensures forall i :: FirstFormatAt(formats, name, i) ==> r == formats[i].id
  {
    match FormatIndex(formats, name)
    case None => None
    case Some(i) => formats[i].id
  }

  /** Index of the first quality profile called `name`, if any. */
  function ProfileIndex(profiles: seq<Profile>, name: string): (r: Option<nat>)
    ensures r.Some? ==> FirstProfileAt(profiles, name, r.value)
    ensures r.None? <==> forall k :: 0 <= k < |profiles| ==> profiles[k].name != name
  {
    if profiles == [] then None
    else if profiles[0].name == name then Some(0)
    else
      match ProfileIndex(profiles[1..], name)
      case None => None
      case Some(k) => Some(k + 1)
  }

  /** The first quality profile called `name`, if any. */
  function FindProfile(profiles: seq<Profile>, name: string): (r: Option<Profile>)
    ensures r.None? <==> forall k :: 0 <= k < |profiles| ==> profiles[k].name != name
    ensures r.Some? ==> r.value in profiles && r.value.name == name
    ensures forall i :: FirstProfileAt(profiles, name, i) ==> r == Some(profiles[i])
  {
    match ProfileIndex(profiles, name)
    case None => None
    case Some(i) => Some(profiles[i])
  }

  /** Whether some quality profile is called `name`. */
  function HasProfile(profiles: seq<Profile>, name: string): (b: bool)
    ensures b <==> exists k :: 0 <= k < |profiles| && profiles[k].name == name
  {
    if profiles == [] then false
    else profiles[0].name == name || HasProfile(profiles[1..], name)
  }
}
