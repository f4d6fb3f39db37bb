/**
 * What one run of the pass promises, and what two runs in a row promise,
 * stated about `Pass`; `Reconcile` is proved to behave as `Pass` says.
 */
module PassProperties {
  import opened Wrappers
  import opened ArrRecords
  import opened Lookup
  import opened Derivation
  import opened ArrApi
  import opened Reconcile

  /** The custom format the pass stores when it creates "Prefer x265". */
  function CreatedFormat(st: Remote): CustomFormat
  {
    X265Format.(id := Some(st.nextId))
  }

  /** An existing "Prefer x265" is reused: no custom format is posted and its id is scored. */
  lemma FormatReused(st: Remote, down: set<Route>, x265Id: int)
    requires FormatsGet !in down
    requires FormatId(st.formats, X265Name) == Some(x265Id)
    ensures Pass(st, down).after.formats == st.formats
    ensures NoFormatPost(Pass(st, down).calls)
    ensures forall k :: 0 <= k < |Pass(st, down).calls| && Pass(st, down).calls[k].PostProfile? ==>
      Pass(st, down).calls[k].profile.formatItems == [FormatItem(x265Id, X265Name, X265Score)]
    ensures Pass(st, down).code == Changed <==> Pass(st, down).after.profiles != st.profiles
  {
  }

  /**
   * A missing "Prefer x265" is posted once, right after the GET, with the
   * fixed body; the profile then scores the id the server gave it.
   */
  lemma FormatCreated(st: Remote, down: set<Route>)
    requires FormatsGet !in down
    requires FormatId(st.formats, X265Name).None?
    ensures |Pass(st, down).calls| >= 2
    ensures Pass(st, down).calls[..2] == [GetFormats, PostFormat(X265Format)]
    ensures forall k :: 0 <= k < |Pass(st, down).calls| && Pass(st, down).calls[k].PostFormat? ==> k == 1
    ensures FormatsPost in down ==>
      Pass(st, down) == Trace(Failed, [GetFormats, PostFormat(X265Format)], st)
    ensures FormatsPost !in down ==>
      Pass(st, down).after.formats == st.formats + [CreatedFormat(st)]
    ensures forall k :: 0 <= k < |Pass(st, down).calls| && Pass(st, down).calls[k].PostProfile? ==>
      Pass(st, down).calls[k].profile.formatItems == [FormatItem(st.nextId, X265Name, X265Score)]
  {
  }

  /**
   * When "4K Minimal" exists the run stops after the profile GET with exit 0,
   * posting no profile, even when it has just created the custom format.
   */
  lemma ProfileExists(st: Remote, down: set<Route>)
    requires FormatStepSucceeds(st, down)
    requires ProfilesGet !in down
    requires HasProfile(st.profiles, TargetName)
    ensures Pass(st, down).code == Unchanged
    ensures NoProfilePost(Pass(st, down).calls)
    ensures Pass(st, down).after.profiles == st.profiles
    ensures FormatId(st.formats, X265Name).Some? ==>
      Pass(st, down) == Trace(Unchanged, [GetFormats, GetProfiles], st)
    ensures FormatId(st.formats, X265Name).None? ==>
      Pass(st, down) == Trace(Unchanged, [GetFormats, PostFormat(X265Format), GetProfiles],
                              st.WithFormat(X265Format))
  {
  }

  /** Without "4K Minimal" and without "Ultra-HD" the run exits 1 and posts no profile. */
  lemma MissingTemplate(st: Remote, down: set<Route>)
    requires FormatStepSucceeds(st, down)
    requires ProfilesGet !in down
    requires !HasProfile(st.profiles, TargetName)
    requires !HasProfile(st.profiles, TemplateName)
    ensures Pass(st, down).code == Failed
    ensures NoProfilePost(Pass(st, down).calls)
    ensures Pass(st, down).after.profiles == st.profiles
    ensures Pass(st, down).calls[|Pass(st, down).calls| - 1] == GetProfiles
  {
  }

  /**
   * A failing call is the last call of the run and makes it exit 1; a run
   * exits 1 only on a failing call or a missing template.
   */
  lemma FailureIsFinal(st: Remote, down: set<Route>)
    ensures |Pass(st, down).calls| >= 1 && Pass(st, down).calls[0] == GetFormats
    ensures forall k :: 0 <= k < |Pass(st, down).calls| && Pass(st, down).calls[k].Endpoint() in down ==>
      k == |Pass(st, down).calls| - 1 && Pass(st, down).code == Failed
    ensures Pass(st, down).code == Failed ==>
      || Pass(st, down).calls[|Pass(st, down).calls| - 1].Endpoint() in down
      || (!HasProfile(st.profiles, TargetName) && !HasProfile(st.profiles, TemplateName))
  {
  }

  /**
   * Without "4K Minimal", with the template found and the calls succeeding,
   * the run posts exactly one profile, derived from the first "Ultra-HD"
   * with the format id in use, stores it, and exits 2. On a well-formed
   * store the id it is stored with is fresh.
   */
  lemma ProfileCreated(st: Remote, down: set<Route>, x265Id: int, template: Profile)
    requires FormatStepSucceeds(st, down)
    requires FormatId(st.formats, X265Name) == Some(x265Id) ||
             (FormatId(st.formats, X265Name).None? && x265Id == st.nextId)
    requires ProfilesGet !in down && ProfilesPost !in down
    requires !HasProfile(st.profiles, TargetName)
    requires FindProfile(st.profiles, TemplateName) == Some(template)
    ensures Pass(st, down).code == Changed
    ensures Pass(st, down).calls[|Pass(st, down).calls| - 1].PostProfile?
    ensures IsDerivation(template, x265Id, Pass(st, down).calls[|Pass(st, down).calls| - 1].profile)
    ensures NoProfilePost(Pass(st, down).calls[..|Pass(st, down).calls| - 1])
    ensures |Pass(st, down).after.profiles| == |st.profiles| + 1
    ensures Pass(st, down).after.profiles[..|st.profiles|] == st.profiles
    ensures Pass(st, down).after.profiles[|st.profiles|] ==
      Pass(st, down).calls[|Pass(st, down).calls| - 1].profile.(id := Some(Pass(st, down).after.nextId - 1))
    ensures st.Valid() ==> Pass(st, down).after.Valid()
    ensures st.Valid() ==> forall i :: 0 <= i < |st.profiles| ==>
      st.profiles[i].id != Pass(st, down).after.profiles[|st.profiles|].id
  {
  }

  /** The exit code says which of the three outcomes the run had. */
  lemma ExitCodes(st: Remote, down: set<Route>)
    ensures Pass(st, down).code in {Unchanged, Failed, Changed}
    ensures Pass(st, down).code == Unchanged ==>
      HasProfile(st.profiles, TargetName) && Pass(st, down).after.profiles == st.profiles
    ensures Pass(st, down).code == Changed <==>
      |Pass(st, down).after.profiles| == |st.profiles| + 1
    ensures Pass(st, down).code == Changed ==>
      !HasProfile(st.profiles, TargetName) && HasProfile(Pass(st, down).after.profiles, TargetName)
  {
    if Pass(st, down).code == Changed {
      ProfileFoundAfter(st, down);
    }
  }

  /** A successful run leaves "Prefer x265" findable by its id. */
  lemma {:induction false} FormatFoundAfter(st: Remote, down: set<Route>)
    requires st.Valid()
    requires Pass(st, down).code != Failed
    ensures FormatId(Pass(st, down).after.formats, X265Name).Some?
  {
    var t := Pass(st, down);
    match FormatId(st.formats, X265Name)
    case Some(_) =>
    case None =>
      var n := |st.formats|;
      assert FormatIndex(st.formats, X265Name).None?;
      assert t.after.formats == st.formats + [CreatedFormat(st)];
      assert FirstFormatAt(t.after.formats, X265Name, n);
  }

  /** A successful run leaves "4K Minimal" among the profiles. */
  lemma {:induction false} ProfileFoundAfter(st: Remote, down: set<Route>)
    requires Pass(st, down).code != Failed
    ensures HasProfile(Pass(st, down).after.profiles, TargetName)
  {
    var t := Pass(st, down);
    if t.code == Changed {
      assert t.after.profiles[|st.profiles|].name == TargetName;
    }
  }

  /**
   * A second run after a successful one posts nothing and changes nothing;
   * when its GETs succeed it exits 0 after exactly the two GETs.
   */
  lemma {:induction false} Idempotent(st: Remote, down1: set<Route>, down2: set<Route>)
    requires st.Valid()
    requires Pass(st, down1).code != Failed
    ensures Pass(Pass(st, down1).after, down2).after == Pass(st, down1).after
    ensures NoFormatPost(Pass(Pass(st, down1).after, down2).calls)
    ensures NoProfilePost(Pass(Pass(st, down1).after, down2).calls)
    ensures FormatsGet !in down2 && ProfilesGet !in down2 ==>
      Pass(Pass(st, down1).after, down2) == Trace(Unchanged, [GetFormats, GetProfiles], Pass(st, down1).after)
  {
    FormatFoundAfter(st, down1);
    ProfileFoundAfter(st, down1);
  }

  /** With no failing call, a store holding "Ultra-HD" converges in one run. */
  lemma {:induction false} TemplateRunSucceeds(st: Remote)
    requires HasProfile(st.profiles, TemplateName)
    ensures Pass(st, {}).code != Failed
  {
    match FormatId(st.formats, X265Name)
    case Some(id) =>
    case None =>
      assert st.WithFormat(X265Format).profiles == st.profiles;
  }

  /**
   * Run the pass once, with no failing call, on a store holding "Ultra-HD";
   * a second such run exits 0 after its two GETs and leaves the store as it was.
   */
  lemma {:induction false} ConvergesFromTemplate(st: Remote)
    requires st.Valid()
    requires HasProfile(st.profiles, TemplateName)
    ensures Pass(Pass(st, {}).after, {}) == Trace(Unchanged, [GetFormats, GetProfiles], Pass(st, {}).after)
  {
    TemplateRunSucceeds(st);
    Idempotent(st, {}, {});
  }

  /** The "Ultra-HD" template of the worked example: two WEB groups and one other. */
  function ExampleTemplate(): Profile
  {
    Profile(Some(5), TemplateName, false, 19,
      [ Item(Some("WEB 1080p"), false, [Item(None, false, [], map[])], map[])
      , Item(Some("WEB 2160p"), false, [Item(None, false, [], map[])], map[])
      , Item(Some("Other"), true, [], map[])
      ],
      [], 5, 5, 5, map[])
  }

  /**
   * Worked example: no custom formats and only "Ultra-HD". The run creates
   * the format (id 10), then creates "4K Minimal" allowing the two WEB groups
   * and their sub-items, disallowing "Other", scoring format 10, and exits 2.
   */
  lemma Example()
    ensures var t := Pass(Remote([], [ExampleTemplate()], 10), {});
      && t.code == Changed
      && |t.calls| == 4 && t.calls[1] == PostFormat(X265Format) && t.calls[3].PostProfile?
      && var p := t.calls[3].profile;
      && p.name == TargetName && p.cutoff == TargetCutoff && p.id.None?
      && p.formatItems == [FormatItem(10, X265Name, X265Score)]
      && |p.items| == 3
      && p.items[0].allowed && p.items[0].items[0].allowed
      && p.items[1].allowed && p.items[1].items[0].allowed
      && !p.items[2].allowed
  {
    var st := Remote([], [ExampleTemplate()], 10);
    assert FormatId(st.formats, X265Name).None?;
    assert !HasProfile(st.profiles, TargetName);
    assert FirstProfileAt(st.profiles, TemplateName, 0);
  }
}
