/**
 * `add_metadata(dictionary, table_id, universe, acs_release)`: the section
 * of a profile document that the caller passes in is updated in place, its
 * `metadata` key set to a new dictionary naming the table, the universe and
 * the release the section's figures come from.
 */
module Metadata {
  import opened Wrappers
  import opened PyValues

  /** `dict(table_id=…, universe=…, acs_release=…)`. */
  function MetadataOf(tableId: string, universe: string, acsRelease: string): Value
  {
    Dict([("table_id", Str(tableId)), ("universe", Str(universe)), ("acs_release", Str(acsRelease))])
  }

  /** The metadata dictionary has the three keys, each with the value it was given. */
  lemma MetadataFields(tableId: string, universe: string, acsRelease: string)
    ensures var m := MetadataOf(tableId, universe, acsRelease);
            m.Dict? && Keys(m.entries) == ["table_id", "universe", "acs_release"] && UniqueKeys(m.entries) &&
            Get(m.entries, "table_id") == Some(Str(tableId)) &&
            Get(m.entries, "universe") == Some(Str(universe)) &&
            Get(m.entries, "acs_release") == Some(Str(acsRelease))
  {
    var es := MetadataOf(tableId, universe, acsRelease).entries;
    assert "table_id"[0] != "universe"[0] && "table_id"[0] != "acs_release"[0] && "universe"[0] != "acs_release"[0];
    var last := es[1..][1..];
    assert last == [("acs_release", Str(acsRelease))];
    assert Keys(last) == ["acs_release"];
    assert Keys(es[1..]) == ["universe"] + Keys(last);
    assert Keys(es) == ["table_id"] + Keys(es[1..]);
    assert Get(es[1..], "acs_release") == Get(last, "acs_release");
  }

  /** A document section, a dictionary that the caller and `add_metadata` share. */
  class Section {
    var entries: Entries

    constructor (entries0: Entries)
      ensures entries == entries0
    {
      entries := entries0;
    }

    /** `dictionary['metadata'] = val`: only the `metadata` key changes, the others keep their values and order. */
    method AddMetadata(tableId: string, universe: string, acsRelease: string)
      modifies this
      ensures entries == Put(old(entries), "metadata", MetadataOf(tableId, universe, acsRelease))
      ensures Get(entries, "metadata") == Some(MetadataOf(tableId, universe, acsRelease))
      ensures forall k :: k != "metadata" ==> Get(entries, k) == Get(old(entries), k)
      ensures Keys(entries) == if "metadata" in Keys(old(entries)) then Keys(old(entries)) else Keys(old(entries)) + ["metadata"]
    {
      var val := MetadataOf(tableId, universe, acsRelease);
      forall k {
        GetPut(entries, "metadata", val, k);
      }
      KeysPut(entries, "metadata", val);
      entries := Put(entries, "metadata", val);
    }
  }
}
