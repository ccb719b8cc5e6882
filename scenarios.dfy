/** Facts about the dashboard's own reference data, and a session walked
    through the handlers in the order an operator would trigger them. */
module Scenarios {
  import opened Types
  import opened ReferenceData
  import opened Lookups
  import opened History
  import opened Cleanup
  import opened MapClick
  import opened AppSession

  /** Zone Z1's latest event is its third, dated 2024-01-03. */
  lemma Z1LatestEvent()
    ensures LatestIndex(HistoryData["Z1"]) == 2
  {
    var es := HistoryData["Z1"];
    LexLessAtIndex(es[0].date, es[1].date, 6);
    LexLessAtIndex(es[1].date, es[2].date, 3);
    LatestOfThreeIncreasing(es);
  }

  /** Zone Z1 has three past spills (1.8 + 2.2 + 1.1 km²); the most recent is
      2024-01-03 with 1.1 km². */
  lemma Z1HistoryDigest()
    ensures SummarizeHistory(HistoryData, "Z1") == Digest(3, 5.1, 2.2, "2024-01-03", 1.1)
  {
    var es := HistoryData["Z1"];
    Z1LatestEvent();
    assert es[..2][..1] == [es[0]];
    assert TotalArea([es[0]]) == 1.8;
    assert TotalArea(es[..2]) == 4.0;
    assert TotalArea(es) == 5.1;
    assert MaxArea(es[..2]) == 2.2;
  }

  /** A zone without history gets the fixed no-history sentence. */
  lemma UnknownZoneHasNoHistory()
    ensures SummarizeHistory(HistoryData, "Z9") == NoHistory
    ensures SpillsOf(SpillData, "Z9") == []
    ensures FindZone(DangerZones, "Z9") == None
  {
  }

  /** The seeded cleanup table of the dashboard holds S1, S2 and S3. */
  lemma AppCleanupKeys()
    ensures AllSpillKeys(DangerZones, SpillData) == {"S1", "S2", "S3"}
  {
    var z := DangerZones;
    assert z[..1][..0] == [];
    assert AllSpillKeys(z[..1], SpillData) == {"S1"};
    assert z[..2][..1] == z[..1];
    assert AllSpillKeys(z[..2], SpillData) == {"S1", "S2"};
    assert z[..3][..2] == z[..2] && z[..3] == z;
  }

  /** A click 0.25 north of Z1's centre: Z1 is nearest, but outside the 0.2
      tolerance, so the click selects nothing. */
  lemma ClickOutsideTolerance()
    ensures IsFirstNearest(DangerZones, 40.45, 49.80, 0)
    ensures !ClickHits(DangerZones, 40.45, 49.80, 0)
  {
  }

  /** The dashboard's zone ids can all be offered by the dropdown. */
  lemma AppZonesDropdownSafe()
    ensures DropdownSafeIds(DangerZones)
  {
  }

  /** An idle spill pressed twice is "done": the second press completes it. */
  lemma TwoPressesCompleteCleanup(m: map<string, Status>)
    requires "S1" in m && m["S1"] == Idle
    ensures StatusOf(PressButton(m, "S1"), "S1") == Cleaning
    ensures StatusOf(PressButton(PressButton(m, "S1"), "S1"), "S1") == Done
  {
  }

  /** An operator's session: click near Z2, take its spill, dispatch and
      complete the cleanup, ask a question, then switch zone in the dropdown. */
  method OperatorSession()
  {
    AppZonesDropdownSafe();
    var s := new Session(DangerZones, SpillData);
    AppCleanupKeys();
    var closest := s.ClickMap(40.06, 49.91);
    assert IsFirstNearest(DangerZones, 40.06, 49.91, 1) by {
      assert SqDist(DangerZones[1], 40.06, 49.91) < SqDist(DangerZones[0], 40.06, 49.91);
    }
    assert closest == Some(1);
    assert s.selectedZoneId == Some("Z2");
    s.RepairSpillSelection();
    assert s.selectedSpillId == Some("S2");
    var pressed := s.PressCleanup();
    assert StatusOf(s.cleanupStatus, "S2") == Cleaning;
    pressed := s.PressCleanup();
    assert StatusOf(s.cleanupStatus, "S2") == Done;
    assert SpillsOf(SpillData, "Z2")[0].spillId == Some("S2");
    assert s.ContextSpillFound();
    var answered := s.SubmitChat("Likely source?", false, AssistantGateway.Raised("unused"));
    assert |s.chatMessages| == 2;
    var ok := s.ChooseZoneInDropdown(3);
    assert s.zones[2].zoneId == "Z3";
    assert s.selectedZoneId == Some("Z3") && s.selectedSpillId == None && s.chatMessages == [];
    assert StatusOf(s.cleanupStatus, "S2") == Done;
  }

  /** A zone whose only feature has no id: the selectors list it as
      "Unknown", the assistant's context lookup finds no feature with that
      id, and no chat turn is taken. */
  method SpillWithoutIdGetsNoChat()
  {
    var zones := [Zone("Z", 40.0, 50.0, "SCENE")];
    assert DropdownSafeIds(zones);
    var s := new Session(zones, map["Z" := [Spill(None, 1.0, "crude", "thin", 0.5)]]);
    var ok := s.ChooseZoneInDropdown(1);
    assert s.selectedZoneId == Some("Z");
    s.RepairSpillSelection();
    assert s.selectedSpillId == Some("Unknown");
    var answered := s.SubmitChat("Likely source?", true, AssistantGateway.Answered("text"));
    assert !answered && s.chatMessages == [];
  }

  /** A zone whose id is the empty string: the dropdown selects it, but the
      page treats an empty id as no zone, so no spill is listed, no cleanup
      press happens and no chat turn is taken. */
  method EmptyZoneIdOffersNoControls()
  {
    var zones := [Zone("", 40.0, 50.0, "SCENE")];
    assert DropdownSafeIds(zones);
    var s := new Session(zones, map["" := [Spill(Some("S"), 1.0, "crude", "thin", 0.5)]]);
    var ok := s.ChooseZoneInDropdown(1);
    assert s.selectedZoneId == Some("") && !s.ZoneShown();
    s.RepairSpillSelection();
    assert s.selectedSpillId == None;
    var pressed := s.PressCleanup();
    assert !pressed;
    var answered := s.SubmitChat("q", true, AssistantGateway.Answered("a"));
    assert !answered && s.chatMessages == [];
  }
}
