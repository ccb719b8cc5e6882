/** Pure lookups over the static tables: the spill features of a zone, the
    metadata of a zone, the zone id chosen in the dropdown, the ids listed in a
    spill selector and the colour of a spill. */
module Lookups {
  import opened Types

  /** get_spill_geojson: the features listed for a zone; an unknown zone has an
      empty feature collection. */
  function SpillsOf(table: map<string, seq<Spill>>, zoneId: string): (fs: seq<Spill>)
    ensures zoneId !in table ==> fs == []
    ensures zoneId in table ==> fs == table[zoneId]
  {
    if zoneId in table then table[zoneId] else []
  }

  /** get_zone_meta: the first zone, in enumeration order, whose id matches;
      None when no zone has that id. */
  function FindZone(zones: seq<Zone>, zoneId: string): (r: Option<Zone>)
    ensures r.None? <==> forall i :: 0 <= i < |zones| ==> zones[i].zoneId != zoneId
    ensures r.Some? ==> r.value.zoneId == zoneId
    ensures r.Some? ==> exists i :: 0 <= i < |zones| && zones[i] == r.value
                                    && (forall j :: 0 <= j < i ==> zones[j].zoneId != zoneId)
    decreases |zones|
  {
    if |zones| == 0 then None
    else if zones[0].zoneId == zoneId then Some(zones[0])
    else
      var r := FindZone(zones[1..], zoneId);
      assert forall i :: 0 < i < |zones| ==> zones[i] == zones[1..][i - 1];
      r
  }

  /** The dropdown separator " - " occurs in `s` at position `i`. */
  predicate SeparatorAt(s: string, i: nat) {
    i + 3 <= |s| && s[i..i + 3] == " - "
  }

  /** `s.split(" - ")[0]`: the text before the first separator, or all of `s`. */
  function FirstField(s: string): (r: string)
    ensures r <= s
    ensures r == s || SeparatorAt(s, |r|)
    ensures forall i: nat :: i < |r| ==> !SeparatorAt(s, i)
    decreases |s|
  {
    if SeparatorAt(s, 0) then ""
    else if |s| == 0 then ""
    else
      var rest := FirstField(s[1..]);
      assert forall i: nat :: 1 <= i < |s| ==> (SeparatorAt(s, i) <==> SeparatorAt(s[1..], i - 1)) by {
        forall i: nat | 1 <= i < |s| ensures SeparatorAt(s, i) <==> SeparatorAt(s[1..], i - 1) {
          if i + 3 <= |s| { assert s[i..i + 3] == s[1..][i - 1..i + 2]; }
        }
      }
      [s[0]] + rest
  }

  /** The zone id chosen by the sidebar dropdown: "None" means no zone, any
      other option is cut at the first " - ". */
  function DropdownZoneId(option: string): (z: Option<string>)
    ensures option == "None" <==> z.None?
    ensures z.Some? ==> z.value <= option
    ensures z.Some? ==> z.value == option || SeparatorAt(option, |z.value|)
    ensures z.Some? ==> forall i: nat :: i < |z.value| ==> !SeparatorAt(option, i)
  {
    if option == "None" then None else Some(FirstField(option))
  }

  /** Zone ids the dropdown can offer unambiguously: none is "None" and none
      contains the separator. */
  ghost predicate DropdownSafeIds(zones: seq<Zone>) {
    forall i :: 0 <= i < |zones| ==>
      zones[i].zoneId != "None" && forall k: nat :: !SeparatorAt(zones[i].zoneId, k)
  }

  /** The dropdown offers "None" followed by each zone id; choosing a zone's own
      option yields that zone's id whenever ids are not "None" and contain no
      separator. */
  lemma {:induction false} DropdownOptionYieldsZoneId(zones: seq<Zone>, i: nat)
    requires i < |zones|
    requires zones[i].zoneId != "None"
    requires forall k: nat :: !SeparatorAt(zones[i].zoneId, k)
    ensures DropdownZoneId(zones[i].zoneId) == Some(zones[i].zoneId)
  {
  }

  /** The id a spill selector lists for a feature: "Unknown" when it has none. */
  function DisplayId(f: Spill): string {
    if f.spillId.Some? then f.spillId.value else "Unknown"
  }

  /** The spill ids listed by the cleanup and assistant selectors: one per
      feature, in feature order, "Unknown" standing for a missing id. */
  function SpillIds(fs: seq<Spill>): (ids: seq<string>)
    ensures |ids| == |fs|
    ensures forall i :: 0 <= i < |fs| && fs[i].spillId.Some? ==> ids[i] == fs[i].spillId.value
    ensures forall i :: 0 <= i < |fs| && fs[i].spillId.None? ==> ids[i] == "Unknown"
  {
    seq(|fs|, i requires 0 <= i < |fs| => DisplayId(fs[i]))
  }

  /** get_spill_color: the status decides first ("done" green, "cleaning" blue);
      an idle spill is coloured by its thickness class, grey when unknown. */
  function SpillColor(thickness: string, status: Status): (c: string)
    ensures c == "green" <==> status == Done
    ensures c == "blue" <==> status == Cleaning
    ensures status == Idle ==> c in {"red", "orange", "yellow", "gray"}
    ensures status == Idle ==> (c == "red" <==> thickness == "thick")
    ensures status == Idle ==> (c == "orange" <==> thickness == "medium")
    ensures status == Idle ==> (c == "yellow" <==> thickness == "thin")
  {
    if status == Done then "green"
    else if status == Cleaning then "blue"
    else if thickness == "thick" then "red"
    else if thickness == "medium" then "orange"
    else if thickness == "thin" then "yellow"
    else "gray"
  }
}
