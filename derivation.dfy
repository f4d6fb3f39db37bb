/**
 * Deriving the "4K Minimal" profile from the "Ultra-HD" template: the
 * template's id is dropped, its header fields are set, the allow-flag of
 * every top-level item is set from the allow-list and copied to that item's
 * direct sub-items, and the format-score table and thresholds are replaced.
 */
module Derivation {
  import opened Wrappers
  import opened ArrRecords

  const TargetName := "4K Minimal"
  /** The id of the "WEB 2160p" quality group, where upgrades stop. */
  const TargetCutoff := 1003
  const AllowedGroups: set<string> := {"WEB 1080p", "WEB 2160p"}
  const X265Name := "Prefer x265"
  const X265Score := 100
  const MinFormatScore := 0
  const CutoffFormatScore := 0
  const MinUpgradeFormatScore := 1

  /** An item has a `name` and that name is on the allow-list. */
  predicate IsAllowedGroup(item: Item)
  {
    item.name.Some? && item.name.value in AllowedGroups
  }

  /**
   * `after` is `before` with its allow-flag and the allow-flag of each direct
   * sub-item set to `v`; everything else, deeper levels included, is unchanged.
   */
  predicate Toggled(before: Item, after: Item, v: bool)
  {
    && after.name == before.name
    && after.allowed == v
    && after.extra == before.extra
    && |after.items| == |before.items|
    && forall j :: 0 <= j < |before.items| ==> after.items[j] == before.items[j].(allowed := v)
  }

  /** `p` is what the pass submits when it derives a profile from `template`. */
  predicate IsDerivation(template: Profile, formatId: int, p: Profile)
  {
    && p.id.None?
    && p.name == TargetName
    && p.upgradeAllowed
    && p.cutoff == TargetCutoff
    && |p.items| == |template.items|
    && (forall i :: 0 <= i < |template.items| ==>
          Toggled(template.items[i], p.items[i], IsAllowedGroup(template.items[i])))
    && p.formatItems == [FormatItem(formatId, X265Name, X265Score)]
    && p.minFormatScore == MinFormatScore
    && p.cutoffFormatScore == CutoffFormatScore
    && p.minUpgradeFormatScore == MinUpgradeFormatScore
    && p.extra == template.extra
  }

  /** The sub-items `subs`, each with its allow-flag set to `v`. */
  function SetEachAllowed(subs: seq<Item>, v: bool): (r: seq<Item>)
    ensures |r| == |subs|
    ensures forall j :: 0 <= j < |subs| ==> r[j] == subs[j].(allowed := v)
  {
    if subs == [] then [] else [subs[0].(allowed := v)] + SetEachAllowed(subs[1..], v)
  }

  /** The top-level items after the allow-list pass. */
  function AllowListed(items: seq<Item>): (r: seq<Item>)
    ensures |r| == |items|
    ensures forall i :: 0 <= i < |items| ==> Toggled(items[i], r[i], IsAllowedGroup(items[i]))
  {
    if items == [] then []
    else
      var v := IsAllowedGroup(items[0]);
      [items[0].(allowed := v, items := SetEachAllowed(items[0].items, v))] + AllowListed(items[1..])
  }

  /** The derived profile, as a value. */
  function DeriveProfile(template: Profile, formatId: int): (p: Profile)
    ensures IsDerivation(template, formatId, p)
    ensures forall i :: 0 <= i < |p.items| ==>
      (p.items[i].allowed <==> template.items[i].name in {Some("WEB 1080p"), Some("WEB 2160p")})
    ensures forall i :: 0 <= i < |p.items| && template.items[i].name.None? ==> !p.items[i].allowed
  {
    template.(
      id := None,
      name := TargetName,
      upgradeAllowed := true,
      cutoff := TargetCutoff,
      items := AllowListed(template.items),
      formatItems := [FormatItem(formatId, X265Name, X265Score)],
      minFormatScore := MinFormatScore,
      cutoffFormatScore := CutoffFormatScore,
      minUpgradeFormatScore := MinUpgradeFormatScore)
  }

  /** `IsDerivation` leaves no freedom: it determines the derived profile. */
  lemma {:induction false} DerivationUnique(template: Profile, formatId: int, p: Profile, q: Profile)
    requires IsDerivation(template, formatId, p)
    requires IsDerivation(template, formatId, q)
    ensures p == q
  {
    forall i | 0 <= i < |template.items|
      ensures p.items[i] == q.items[i]
    {
      var t := template.items[i];
      assert p.items[i].items == q.items[i].items by {
        assert |p.items[i].items| == |t.items| == |q.items[i].items|;
        forall j | 0 <= j < |t.items|
          ensures p.items[i].items[j] == q.items[i].items[j]
        {
        }
      }
    }
    assert p.items == q.items;
  }

  /**
   * Deriving from a well-formed template gives a well-formed profile, so the
   * popped `id` is absent altogether: it is neither a field nor an extra key.
   */
  lemma {:induction false} DerivedWellFormed(template: Profile, formatId: int)
    requires template.WellFormed()
    ensures DeriveProfile(template, formatId).WellFormed()
    ensures DeriveProfile(template, formatId).id.None?
    ensures "id" !in DeriveProfile(template, formatId).extra
  {
    var p := DeriveProfile(template, formatId);
    forall i | 0 <= i < |p.items|
      ensures p.items[i].WellFormed()
    {
      var t := template.items[i];
      assert t.WellFormed();
      forall j | 0 <= j < |t.items|
        ensures p.items[i].items[j].WellFormed()
      {
        assert t.items[j].WellFormed();
      }
    }
  }

  /** Sets the allow-flag of `item` and of each of its direct sub-items to `v`. */
  method SetAllowed(item: Item, v: bool) returns (r: Item)
    ensures Toggled(item, r, v)
  {
    r := item.(allowed := v);
    var subs := r.items;
    var j := 0;
    while j < |subs|
      invariant 0 <= j <= |subs| == |item.items|
      invariant forall k :: 0 <= k < j ==> subs[k] == item.items[k].(allowed := v)
      invariant forall k :: j <= k < |subs| ==> subs[k] == item.items[k]
    {
      subs := subs[j := subs[j].(allowed := v)];
      j := j + 1;
    }
    r := r.(items := subs);
  }

  /**
   * Rewrites the fetched template step by step into the profile to submit,
   * as the pass does to the template record in place.
   */
  method Derive(template: Profile, x265Id: int) returns (p: Profile)
    ensures IsDerivation(template, x265Id, p)
    ensures p == DeriveProfile(template, x265Id)
  {
    p := template.(id := None);
    p := p.(name := TargetName);
    p := p.(upgradeAllowed := true);
    p := p.(cutoff := TargetCutoff);

    var items := p.items;
    var i := 0;
    while i < |items|
      invariant 0 <= i <= |items| == |template.items|
      invariant forall k :: 0 <= k < i ==>
        Toggled(template.items[k], items[k], IsAllowedGroup(template.items[k]))
      invariant forall k :: i <= k < |items| ==> items[k] == template.items[k]
    {
      var item := items[i];
      var isAllowedGroup := item.name.Some? && item.name.value in AllowedGroups;
      if isAllowedGroup {
        item := SetAllowed(item, true);
      } else {
        item := SetAllowed(item, false);
      }
      items := items[i := item];
      i := i + 1;
    }
    p := p.(items := items);

    p := p.(formatItems := [FormatItem(x265Id, X265Name, X265Score)]);
    p := p.(minFormatScore := MinFormatScore);
    p := p.(cutoffFormatScore := CutoffFormatScore);
    p := p.(minUpgradeFormatScore := MinUpgradeFormatScore);
    DerivationUnique(template, x265Id, p, DeriveProfile(template, x265Id));
  }
}
