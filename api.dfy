/**
 * The *arr API as the pass sees it: two resource collections that can be
 * listed and appended to. The transport (a `curl` run inside the
 * application's container) is replaced by an in-memory store whose calls on
 * the routes in `down` fail, standing for the transport failure that ends
 * the run with exit code 1.
 */
module ArrApi {
  import opened Wrappers
  import opened ArrRecords

  datatype Verb = GET | POST

  /** An HTTP verb on a collection path below `/api/v3`. */
  datatype Route = Route(verb: Verb, path: string)

  const CustomFormatPath := "/customformat"
  const QualityProfilePath := "/qualityprofile"

  const FormatsGet := Route(GET, CustomFormatPath)
  const FormatsPost := Route(POST, CustomFormatPath)
  const ProfilesGet := Route(GET, QualityProfilePath)
  const ProfilesPost := Route(POST, QualityProfilePath)

  /** A request the pass sent, with its body. */
  datatype Request =
    | GetFormats
    | PostFormat(format: CustomFormat)
    | GetProfiles
    | PostProfile(profile: Profile)
  {
    function Endpoint(): Route
    {
      match this
      case GetFormats => FormatsGet
      case PostFormat(_) => FormatsPost
      case GetProfiles => ProfilesGet
      case PostProfile(_) => ProfilesPost
    }
  }

  /** The contents of the two collections, and the next id the server hands out. */
  datatype Remote = Remote(formats: seq<CustomFormat>, profiles: seq<Profile>, nextId: int)
  {
    /** Every stored record carries an id, and every id is below `nextId`. */
    predicate Valid()
    {
      && (forall i :: 0 <= i < |formats| ==> formats[i].id.Some? && formats[i].id.value < nextId)
      && (forall i :: 0 <= i < |profiles| ==> profiles[i].id.Some? && profiles[i].id.value < nextId)
    }

    /** The store after a created custom format; the server gives it a fresh id. */
    function WithFormat(body: CustomFormat): (r: Remote)
      ensures r.formats == formats + [body.(id := Some(nextId))] && r.profiles == profiles
      ensures Valid() ==> r.Valid()
      ensures Valid() ==> forall i :: 0 <= i < |formats| ==> formats[i].id != Some(nextId)
    {
      Remote(formats + [body.(id := Some(nextId))], profiles, nextId + 1)
    }

    /** The store after a created quality profile; the server gives it a fresh id. */
    function WithProfile(body: Profile): (r: Remote)
      ensures r.profiles == profiles + [body.(id := Some(nextId))] && r.formats == formats
      ensures Valid() ==> r.Valid()
      ensures Valid() ==> forall i :: 0 <= i < |profiles| ==> profiles[i].id != Some(nextId)
    {
      Remote(formats, profiles + [body.(id := Some(nextId))], nextId + 1)
    }
  }

  /**
   * The server. `log` records every request the pass makes, failed ones
   * included; a failed request changes nothing else.
   */
  class ArrServer {
    var formats: seq<CustomFormat>
    var profiles: seq<Profile>
    var nextId: int
    var log: seq<Request>
    /** The routes on which every call fails. */
    const down: set<Route>

    function State(): Remote
      reads this
    {
      Remote(formats, profiles, nextId)
    }

    predicate Valid()
      reads this
    {
      State().Valid()
    }

    constructor (initial: Remote, down: set<Route>)
      ensures State() == initial && this.down == down && log == []
    {
      formats, profiles, nextId := initial.formats, initial.profiles, initial.nextId;
      log := [];
      this.down := down;
    }

    /** GET /customformat. */
    method ListFormats() returns (r: Option<seq<CustomFormat>>)
      modifies this`log
      ensures log == old(log) + [GetFormats]
      ensures r == if FormatsGet in down then None else Some(formats)
    {
      log := log + [GetFormats];
      if FormatsGet in down {
        r := None;
      } else {
        r := Some(formats);
      }
    }

    /** POST /customformat: the created record, with the id the server assigned. */
    method CreateFormat(body: CustomFormat) returns (r: Option<CustomFormat>)
      requires Valid()
      modifies this
      ensures Valid()
      ensures log == old(log) + [PostFormat(body)]
      ensures FormatsPost in down ==> r.None? && State() == old(State())
      ensures FormatsPost !in down ==>
        r == Some(body.(id := Some(old(nextId)))) && State() == old(State()).WithFormat(body)
    {
      log := log + [PostFormat(body)];
      if FormatsPost in down {
        r := None;
      } else {
        var created := body.(id := Some(nextId));
        formats := formats + [created];
        nextId := nextId + 1;
        r := Some(created);
      }
    }

    /** GET /qualityprofile. */
    method ListProfiles() returns (r: Option<seq<Profile>>)
      modifies this`log
      ensures log == old(log) + [GetProfiles]
      ensures r == if ProfilesGet in down then None else Some(profiles)
    {
      log := log + [GetProfiles];
      if ProfilesGet in down {
        r := None;
      } else {
        r := Some(profiles);
      }
    }

    /** POST /qualityprofile: the created record, with the id the server assigned. */
    method CreateProfile(body: Profile) returns (r: Option<Profile>)
      requires Valid()
      modifies this
      ensures Valid()
      ensures log == old(log) + [PostProfile(body)]
      ensures ProfilesPost in down ==> r.None? && State() == old(State())
      ensures ProfilesPost !in down ==>
        r == Some(body.(id := Some(old(nextId)))) && State() == old(State()).WithProfile(body)
    {
      log := log + [PostProfile(body)];
      if ProfilesPost in down {
        r := None;
      } else {
        var created := body.(id := Some(nextId));
        profiles := profiles + [created];
        nextId := nextId + 1;
        r := Some(created);
      }
    }
  }
}
