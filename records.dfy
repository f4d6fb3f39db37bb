/**
 * The JSON records that the *arr API exchanges with the reconciliation pass,
 * as datatypes with explicit optional fields. Keys that the pass neither reads
 * nor writes are kept, with their JSON text, in an `extra` map, so that
 * "nothing else changes" can be stated.
 */
module ArrRecords {
  import opened Wrappers

  /**
   * Keys of a JSON object that the pass does not interpret, each with its
   * JSON text. A well-formed record (`WellFormed` below) has none of the keys
   * that are fields of its datatype in here.
   */
  type OtherFields = map<string, string>

  /** The keys of an entry of `items` that `Item` has fields for. */
  const ItemKeys: set<string> := {"name", "allowed", "items"}

  /** The keys of a quality profile that `Profile` has fields for. */
  const ProfileKeys: set<string> :=
    {"id", "name", "upgradeAllowed", "cutoff", "items", "formatItems",
     "minFormatScore", "cutoffFormatScore", "minUpgradeFormatScore"}

  /** One `{"name": ..., "value": ...}` entry of a matcher rule's `fields`. */
  datatype RuleField = RuleField(name: string, value: string)

  /** One entry of a custom format's `specifications`. */
  datatype MatchRule = MatchRule(
    name: string,
    implementation: string,
    negate: bool,
    required: bool,
    fields: seq<RuleField>)

  /**
   * A custom format. `id` is assigned by the server; a request body carries none.
   */
  datatype CustomFormat = CustomFormat(
    id: Option<int>,
    name: string,
    includeCustomFormatWhenRenaming: bool,
    specifications: seq<MatchRule>)

  /**
   * An entry of a profile's `items`: a quality level or a named group of them.
   * `name` is None when the key is absent; `items` is empty when the key is
   * absent, as `item.get("items", [])` reads it.
   */
  datatype Item = Item(
    name: Option<string>,
    allowed: bool,
    items: seq<Item>,
    extra: OtherFields)
  {
    /** No modelled key is also in `extra`, at any depth. */
    predicate WellFormed()
    {
      && extra.Keys !! ItemKeys
      && forall j :: 0 <= j < |items| ==> items[j].WellFormed()
    }
  }

  /** One entry of a profile's `formatItems`. */
  datatype FormatItem = FormatItem(format: int, name: string, score: int)

  /** A quality profile. `id` is None once it has been popped. */
  datatype Profile = Profile(
    id: Option<int>,
    name: string,
    upgradeAllowed: bool,
    cutoff: int,
    items: seq<Item>,
    formatItems: seq<FormatItem>,
    minFormatScore: int,
    cutoffFormatScore: int,
    minUpgradeFormatScore: int,
    extra: OtherFields)
  {
    /** No modelled key is also in `extra`, here or in any item. */
    predicate WellFormed()
    {
      && extra.Keys !! ProfileKeys
      && forall i :: 0 <= i < |items| ==> items[i].WellFormed()
    }
  }
}
