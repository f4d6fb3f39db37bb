/**
 * The reconciliation pass (`main`): make sure the "Prefer x265" custom format
 * exists, then, unless "4K Minimal" already exists, derive it from the
 * "Ultra-HD" template and create it. The exit code is 0 (nothing to do),
 * 1 (an API call failed or the template is missing) or 2 (created).
 *
 * `Pass` is the pass as a function of the store and of the failing routes;
 * `Reconcile` is the pass as the program runs it, against an `ArrServer`,
 * and is proved to behave as `Pass` says. The lemmas state what the pass
 * promises in terms of `Pass`.
 */
module Reconcile {
  import opened Wrappers
  import opened ArrRecords
  import opened Lookup
  import opened Derivation
  import opened ArrApi

  const Unchanged := 0
  const Failed := 1
  const Changed := 2

  const TemplateName := "Ultra-HD"

  /** The custom format the pass creates when it is missing. */
  const X265Format := CustomFormat(
    None,
    X265Name,
    false,
    [MatchRule("x265/HEVC", "ReleaseTitleSpecification", false, false,
               [RuleField("value", "[xh]\\.?265|HEVC")])])

  /** What one run did: its exit code, the requests it sent, the store it left. */
  datatype Trace = Trace(code: int, calls: seq<Request>, after: Remote)

  /**
   * The quality-profile half of the pass, once the format id is known: it
   * starts with the profile GET, never touches the custom formats, and
   * keeps the store well formed.
   */
  function ProfileStep(st: Remote, down: set<Route>, x265Id: int): (t: Trace)
    ensures |t.calls| >= 1 && t.calls[0] == GetProfiles
    ensures t.after.formats == st.formats
    ensures t.code in {Unchanged, Failed, Changed}
    ensures st.Valid() ==> t.after.Valid()
  {
    if ProfilesGet in down then Trace(Failed, [GetProfiles], st)
    else if HasProfile(st.profiles, TargetName) then Trace(Unchanged, [GetProfiles], st)
    else
      match FindProfile(st.profiles, TemplateName)
      case None => Trace(Failed, [GetProfiles], st)
      case Some(template) =>
        var p := DeriveProfile(template, x265Id);
        if ProfilesPost in down then Trace(Failed, [GetProfiles, PostProfile(p)], st)
        else Trace(Changed, [GetProfiles, PostProfile(p)], st.WithProfile(p))
  }

  /** `t` with the requests `calls` sent before it. */
  function After(calls: seq<Request>, t: Trace): Trace
  {
    Trace(t.code, calls + t.calls, t.after)
  }

  /**
   * One run of the pass against the store `st`, with the calls on `down`
   * failing: it starts with the format GET, exits 0, 1 or 2, and keeps the
   * store well formed.
   */
  function Pass(st: Remote, down: set<Route>): (t: Trace)
    ensures |t.calls| >= 1 && t.calls[0] == GetFormats
    ensures t.code in {Unchanged, Failed, Changed}
    ensures st.Valid() ==> t.after.Valid()
  {
    if FormatsGet in down then Trace(Failed, [GetFormats], st)
    else
      match FormatId(st.formats, X265Name)
      case Some(id) => After([GetFormats], ProfileStep(st, down, id))
      case None =>
        if FormatsPost in down
        then Trace(Failed, [GetFormats, PostFormat(X265Format)], st)
        else After([GetFormats, PostFormat(X265Format)], ProfileStep(st.WithFormat(X265Format), down, st.nextId))
  }

  /** The custom-format step finishes: its GET and, when needed, its POST succeed. */
  predicate FormatStepSucceeds(st: Remote, down: set<Route>)
  {
    && FormatsGet !in down
    && (FormatId(st.formats, X265Name).None? ==> FormatsPost !in down)
  }

  /** No request in `calls` is a POST of a custom format. */
  predicate NoFormatPost(calls: seq<Request>)
  {
    forall k :: 0 <= k < |calls| ==> !calls[k].PostFormat?
  }

  /** No request in `calls` is a POST of a quality profile. */
  predicate NoProfilePost(calls: seq<Request>)
  {
    forall k :: 0 <= k < |calls| ==> !calls[k].PostProfile?
  }

  /** Sequence concatenation is associative; stated generically, it is cheap to use. */
  lemma AppendAssoc<T>(a: seq<T>, b: seq<T>, c: seq<T>)
    ensures (a + b) + c == a + (b + c)
  {
  }

  /**
   * The pass, run against `server`, sends the requests, leaves the store and
   * exits as `Pass` says. The quality-profile half is `EnsureProfile`.
   */
  method Reconcile(server: ArrServer) returns (code: int)
    requires server.Valid()
    modifies server
    ensures server.Valid()
    ensures server.log == old(server.log) + Pass(old(server.State()), server.down).calls
    ensures server.State() == Pass(old(server.State()), server.down).after
    ensures code == Pass(old(server.State()), server.down).code
  {
    var changed := false;
    ghost var log0 := server.log;
    ghost var sent: seq<Request>;

    var formats := server.ListFormats();
    if formats.None? {
      return Failed;
    }
    var x265Id := FormatId(formats.value, X265Name);
    var id: int;
    if x265Id.None? {
      var result := server.CreateFormat(X265Format);
      if result.None? {
        return Failed;
      }
      id := result.value.id.value;
      changed := true;
      sent := [GetFormats, PostFormat(X265Format)];
    } else {
      id := x265Id.value;
      sent := [GetFormats];
    }
    assert server.log == log0 + sent;

    var created;
    ghost var st1 := server.State();
    code, created := EnsureProfile(server, id);
    ghost var rest := ProfileStep(st1, server.down, id).calls;
    AppendAssoc(log0, sent, rest);
    if created {
      changed := true;
      code := if changed then Changed else Unchanged;
    }
  }

  /**
   * The quality-profile half of the pass against `server`, with the format
   * id `x265Id`: sends the requests, leaves the store and exits as
   * `ProfileStep` says; `created` tells whether the profile POST succeeded.
   */
  method EnsureProfile(server: ArrServer, x265Id: int) returns (code: int, created: bool)
    requires server.Valid()
    modifies server
    ensures server.Valid()
    ensures server.log == old(server.log) + ProfileStep(old(server.State()), server.down, x265Id).calls
    ensures server.State() == ProfileStep(old(server.State()), server.down, x265Id).after
    ensures code == ProfileStep(old(server.State()), server.down, x265Id).code
    ensures created <==> code == Changed
  {
    created := false;
    var profiles := server.ListProfiles();
    if profiles.None? {
      return Failed, false;
    }
    if HasProfile(profiles.value, TargetName) {
      return Unchanged, false;
    }
    var template := FindProfile(profiles.value, TemplateName);
    if template.None? {
      return Failed, false;
    }
    var p := Derive(template.value, x265Id);
    var result := server.CreateProfile(p);
    if result.None? {
      return Failed, false;
    }
    created := true;
    code := Changed;
  }
}
