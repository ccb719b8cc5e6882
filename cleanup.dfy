/** The cleanup lifecycle: the status table seeded by init_cleanup_status and
    the one-way idle -> cleaning -> done progression driven by the cleanup
    button. */
module Cleanup {
  import opened Types
  import opened Lookups

  /** `cleanup_status.get(sid, "idle")`. */
  function StatusOf(m: map<string, Status>, sid: string): Status {
    if sid in m then m[sid] else Idle
  }

  /** Position of a status in the lifecycle. */
  function Rank(s: Status): nat {
    match s
    case Idle => 0
    case Cleaning => 1
    case Done => 2
  }

  /** The status a spill moves to when the button is pressed. "done" is
      terminal: the button is disabled there. */
  function Advance(s: Status): (t: Status)
    ensures Rank(t) == if s == Done then 2 else Rank(s) + 1
  {
    match s
    case Idle => Cleaning
    case Cleaning => Done
    case Done => Done
  }

  /** The cleanup button for spill `sid`: "idle" becomes "cleaning", "cleaning"
      becomes "done", and a "done" spill's disabled button changes nothing. A
      spill missing from the table counts as "idle" and is added to it. */
  function PressButton(m: map<string, Status>, sid: string): (m': map<string, Status>)
    ensures StatusOf(m', sid) == Advance(StatusOf(m, sid))
    ensures forall other :: other != sid ==> (other in m' <==> other in m)
    ensures forall other :: other != sid && other in m ==> m'[other] == m[other]
    ensures sid in m' <==> sid in m || StatusOf(m, sid) != Done
    ensures StatusOf(m, sid) == Done ==> m' == m
  {
    var current := StatusOf(m, sid);
    if current == Idle then m[sid := Cleaning]
    else if current == Cleaning then m[sid := Done]
    else m
  }

  /** A press never moves a status backward nor skips a step, for any spill. */
  lemma PressIsOneStep(m: map<string, Status>, sid: string, other: string)
    ensures Rank(StatusOf(m, other)) <= Rank(StatusOf(PressButton(m, sid), other)) <= Rank(StatusOf(m, other)) + 1
    ensures other != sid ==> StatusOf(PressButton(m, sid), other) == StatusOf(m, other)
  {
  }

  /** The status after `n` presses of the button, starting from `s`. */
  function Presses(s: Status, n: nat): Status
    decreases n
  {
    if n == 0 then s else Presses(Advance(s), n - 1)
  }

  /** From "idle", presses visit "cleaning" once and then stay at "done". */
  lemma {:induction false} PressesFromIdle(n: nat)
    ensures Presses(Idle, n) == if n == 0 then Idle else if n == 1 then Cleaning else Done
  {
    if n >= 2 {
      assert Presses(Idle, n) == Presses(Done, n - 2);
      DoneIsTerminal(n - 2);
    }
  }

  /** Any number of presses leaves a "done" spill at "done". */
  lemma {:induction false} DoneIsTerminal(n: nat)
    ensures Presses(Done, n) == Done
    decreases n
  {
    if n > 0 { DoneIsTerminal(n - 1); }
  }

  /** The ids init_cleanup_status takes from a zone's features, scanned in
      order: a feature whose id is missing or empty is skipped. */
  function FeatureKeys(fs: seq<Spill>): set<string>
    decreases |fs|
  {
    if |fs| == 0 then {}
    else
      var f := fs[|fs| - 1];
      FeatureKeys(fs[..|fs| - 1]) + (if f.spillId.Some? && f.spillId.value != "" then {f.spillId.value} else {})
  }

  /** The ids init_cleanup_status takes from every zone, in zone order. */
  function AllSpillKeys(zones: seq<Zone>, table: map<string, seq<Spill>>): set<string>
    decreases |zones|
  {
    if |zones| == 0 then {}
    else AllSpillKeys(zones[..|zones| - 1], table) + FeatureKeys(SpillsOf(table, zones[|zones| - 1].zoneId))
  }

  lemma {:induction false} FeatureKeysMembers(fs: seq<Spill>, sid: string)
    ensures sid in FeatureKeys(fs) <==> sid != "" && exists j :: 0 <= j < |fs| && fs[j].spillId == Some(sid)
    decreases |fs|
  {
    if |fs| > 0 {
      var n := |fs| - 1;
      FeatureKeysMembers(fs[..n], sid);
      assert forall j :: 0 <= j < n ==> fs[..n][j] == fs[j];
    }
  }

  /** The keys seeded by init_cleanup_status are exactly the non-empty spill ids
      of the features of all zones. */
  lemma {:induction false} AllSpillKeysMembers(zones: seq<Zone>, table: map<string, seq<Spill>>, sid: string)
    ensures sid in AllSpillKeys(zones, table) <==>
              sid != "" && exists i, j :: 0 <= i < |zones| && 0 <= j < |SpillsOf(table, zones[i].zoneId)|
                                        && SpillsOf(table, zones[i].zoneId)[j].spillId == Some(sid)
    decreases |zones|
  {
    if |zones| > 0 {
      var n := |zones| - 1;
      var fs := SpillsOf(table, zones[n].zoneId);
      AllSpillKeysMembers(zones[..n], table, sid);
      FeatureKeysMembers(fs, sid);
      assert forall i :: 0 <= i < n ==> zones[..n][i] == zones[i];
      if sid in FeatureKeys(fs) {
        var j :| 0 <= j < |fs| && fs[j].spillId == Some(sid);
        assert SpillsOf(table, zones[n].zoneId)[j].spillId == Some(sid);
      }
    }
  }

  /** init_cleanup_status: a table with one "idle" entry per spill id of every
      zone, filled by a scan over zones and their features. */
  method InitCleanupStatus(zones: seq<Zone>, table: map<string, seq<Spill>>) returns (status: map<string, Status>)
    ensures status.Keys == AllSpillKeys(zones, table)
    ensures forall sid :: sid in status ==> status[sid] == Idle
  {
    status := map[];
    for i := 0 to |zones|
      invariant status.Keys == AllSpillKeys(zones[..i], table)
      invariant forall sid :: sid in status ==> status[sid] == Idle
    {
      var features := SpillsOf(table, zones[i].zoneId);
      for j := 0 to |features|
        invariant status.Keys == AllSpillKeys(zones[..i], table) + FeatureKeys(features[..j])
        invariant forall sid :: sid in status ==> status[sid] == Idle
      {
        var sid := features[j].spillId;
        if sid.Some? && sid.value != "" {
          status := status[sid.value := Idle];
        }
        assert features[..j + 1][..j] == features[..j];
      }
      assert features[..|features|] == features;
      assert zones[..i + 1][..i] == zones[..i];
    }
    assert zones[..|zones|] == zones;
  }
}
