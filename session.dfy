/** The dashboard's per-session state (Streamlit's session_state) and the
    handlers that change it: the zone dropdown, a map click, the spill
    selectors with their repair step, the cleanup button and a chat turn. */
module AppSession {
  import opened Types
  import opened Lookups
  import opened Cleanup
  import opened MapClick
  import opened AssistantGateway

  class Session {
    /** The static reference data the session reads. */
    const zones: seq<Zone>
    const spillTable: map<string, seq<Spill>>

    var selectedZoneId: Option<string>
    var selectedSpillId: Option<string>
    var chatMessages: seq<ChatMessage>
    var cleanupStatus: map<string, Status>

    /** The page's truthiness test on the selected zone id: no zone and the
        empty id both count as "no zone selected". */
    predicate ZoneShown()
      reads this
    {
      selectedZoneId.Some? && selectedZoneId.value != ""
    }

    /** The spill ids the selectors list for the selected zone; none when no
        zone is shown. */
    function ListedSpillIds(): seq<string>
      reads this
    {
      if !ZoneShown() then [] else SpillIds(SpillsOf(spillTable, selectedZoneId.value))
    }

    /** The sidebar dropdown's options: "None", then every zone id in order. */
    function ZoneOptions(): (options: seq<string>)
      ensures |options| == |zones| + 1 && options[0] == "None"
      ensures forall i :: 0 <= i < |zones| ==> options[i + 1] == zones[i].zoneId
    {
      ["None"] + seq(|zones|, i requires 0 <= i < |zones| => zones[i].zoneId)
    }

    /** A selected zone is one of the known zones, a selected spill belongs to
        the selected zone, and no spill seeded at start-up ever leaves the
        cleanup table. */
    ghost predicate Valid()
      reads this
    {
      && DropdownSafeIds(zones)
      && (selectedZoneId.Some? ==> exists i :: 0 <= i < |zones| && zones[i].zoneId == selectedZoneId.value)
      && (selectedSpillId.Some? ==> selectedSpillId.value in ListedSpillIds())
      && AllSpillKeys(zones, spillTable) <= cleanupStatus.Keys
    }

    /** Session start: nothing selected, empty transcript, every spill "idle". */
    constructor (zones: seq<Zone>, spillTable: map<string, seq<Spill>>)
      requires DropdownSafeIds(zones)
      ensures Valid()
      ensures this.zones == zones && this.spillTable == spillTable
      ensures selectedZoneId == None && selectedSpillId == None && chatMessages == []
      ensures cleanupStatus.Keys == AllSpillKeys(zones, spillTable)
      ensures forall sid :: sid in cleanupStatus ==> cleanupStatus[sid] == Idle
    {
      var status := InitCleanupStatus(zones, spillTable);
      this.zones := zones;
      this.spillTable := spillTable;
      selectedZoneId := None;
      selectedSpillId := None;
      chatMessages := [];
      cleanupStatus := status;
    }

    /** The sidebar dropdown, which returns one of its options, given here by
        position. Choosing a different zone (or "None") selects it and clears
        the spill selection and the transcript; choosing the current zone
        changes nothing. A position outside the options is rejected. */
    method ChooseZoneInDropdown(choice: nat) returns (ok: bool)
      requires Valid()
      modifies this
      ensures Valid()
      ensures ok <==> choice < |ZoneOptions()|
      ensures ok && choice == 0 ==> DropdownZoneId(ZoneOptions()[choice]) == None
      ensures ok && choice > 0 ==> DropdownZoneId(ZoneOptions()[choice]) == Some(zones[choice - 1].zoneId)
      ensures ok && DropdownZoneId(ZoneOptions()[choice]) != old(selectedZoneId) ==>
                selectedZoneId == DropdownZoneId(ZoneOptions()[choice]) && selectedSpillId == None
                && chatMessages == [] && cleanupStatus == old(cleanupStatus)
      ensures !ok || DropdownZoneId(ZoneOptions()[choice]) == old(selectedZoneId) ==> unchanged(this)
    {
      var options := ZoneOptions();
      ok := choice < |options|;
      if ok {
        if choice > 0 {
          DropdownOptionYieldsZoneId(zones, choice - 1);
        }
        var newZoneId := DropdownZoneId(options[choice]);
        if newZoneId != selectedZoneId {
          selectedZoneId := newZoneId;
          selectedSpillId := None;
          chatMessages := [];
        }
      }
    }

    /** A click on the map: the first nearest zone is selected, with the spill
        selection and transcript cleared, when its centre lies strictly within
        0.2 of the click; otherwise nothing changes. Returns the nearest zone. */
    method ClickMap(clat: real, clon: real) returns (closest: Option<nat>)
      requires Valid()
      modifies this
      ensures Valid()
      ensures closest.None? <==> |zones| == 0
      ensures closest.Some? ==> IsFirstNearest(zones, clat, clon, closest.value)
      ensures closest.Some? && ClickHits(zones, clat, clon, closest.value) ==>
                selectedZoneId == Some(zones[closest.value].zoneId) && selectedSpillId == None
                && chatMessages == [] && cleanupStatus == old(cleanupStatus)
      ensures closest.None? || !ClickHits(zones, clat, clon, closest.value) ==> unchanged(this)
    {
      var minSq;
      closest, minSq := NearestZone(zones, clat, clon);
      if closest.Some? && minSq < ThresholdSq {
        selectedZoneId := Some(zones[closest.value].zoneId);
        selectedSpillId := None;
        chatMessages := [];
      }
    }

    /** The repair both spill selectors run first: when the selected zone lists
        spills and the selected spill is not among them, the first listed spill
        becomes selected. */
    method RepairSpillSelection()
      requires Valid()
      modifies this
      ensures Valid()
      ensures selectedZoneId == old(selectedZoneId) && chatMessages == old(chatMessages)
      ensures cleanupStatus == old(cleanupStatus)
      ensures ListedSpillIds() == [] ==> selectedSpillId == old(selectedSpillId)
      ensures ListedSpillIds() != [] ==>
                selectedSpillId == if old(selectedSpillId).Some? && old(selectedSpillId).value in ListedSpillIds()
                                   then old(selectedSpillId) else Some(ListedSpillIds()[0])
      ensures ListedSpillIds() != [] ==> selectedSpillId.Some? && selectedSpillId.value in ListedSpillIds()
    {
      var ids := ListedSpillIds();
      if ids != [] {
        if selectedSpillId.None? || selectedSpillId.value !in ids {
          selectedSpillId := Some(ids[0]);
        }
      }
    }

    /** A spill selector's choice: the spill at position `choice` of the listed
        spills becomes selected. A choice outside the list (no zone, or no such
        option) is rejected and changes nothing. */
    method ChooseSpill(choice: nat) returns (ok: bool)
      requires Valid()
      modifies this
      ensures Valid()
      ensures selectedZoneId == old(selectedZoneId) && chatMessages == old(chatMessages)
      ensures ok <==> choice < |ListedSpillIds()|
      ensures ok ==> selectedSpillId == Some(ListedSpillIds()[choice])
      ensures !ok ==> selectedSpillId == old(selectedSpillId)
      ensures cleanupStatus == old(cleanupStatus)
    {
      var ids := ListedSpillIds();
      ok := choice < |ids|;
      if ok {
        selectedSpillId := Some(ids[choice]);
      }
    }

    /** The cleanup button for the selected spill: "idle" becomes "cleaning",
        "cleaning" becomes "done", and a "done" spill's button is disabled, so
        no press happens. Only that spill's entry can change; without a
        selected spill there is no button. */
    method PressCleanup() returns (pressed: bool)
      requires Valid()
      modifies this
      ensures Valid()
      ensures pressed <==> old(selectedSpillId).Some? && StatusOf(old(cleanupStatus), old(selectedSpillId).value) != Done
      ensures pressed ==> old(ZoneShown()) && old(selectedSpillId).value in old(ListedSpillIds())
      ensures pressed ==> cleanupStatus == PressButton(old(cleanupStatus), old(selectedSpillId).value)
      ensures !pressed ==> cleanupStatus == old(cleanupStatus)
      ensures selectedZoneId == old(selectedZoneId) && selectedSpillId == old(selectedSpillId)
      ensures chatMessages == old(chatMessages)
    {
      pressed := selectedSpillId.Some? && StatusOf(cleanupStatus, selectedSpillId.value) != Done;
      if pressed {
        var sid := selectedSpillId.value;
        var current := StatusOf(cleanupStatus, sid);
        if current == Idle {
          cleanupStatus := cleanupStatus[sid := Cleaning];
        } else if current == Cleaning {
          cleanupStatus := cleanupStatus[sid := Done];
        }
      }
    }

    /** The assistant's context lookup: a zone is shown and some feature of it
        carries the selected spill's id. A spill listed as "Unknown" has no id,
        so the lookup finds nothing for it. */
    predicate ContextSpillFound()
      reads this
    {
      && ZoneShown()
      && selectedSpillId.Some?
      && exists f :: f in SpillsOf(spillTable, selectedZoneId.value) && f.spillId == selectedSpillId
    }

    /** A chat turn. The chat input is shown once a spill of the selected zone
        is selected and the context lookup has found its feature; a non-empty
        question appends the question and then the gateway's answer, which is
        always a string, so a turn adds exactly two entries and leaves the
        earlier ones as they were. */
    method SubmitChat(query: string, clientConfigured: bool, outcome: CallOutcome) returns (answered: bool)
      requires Valid()
      modifies this
      ensures Valid()
      ensures answered <==> query != "" && old(ContextSpillFound())
      ensures answered ==>
                chatMessages == old(chatMessages)
                                + [ChatMessage(User, query), ChatMessage(Assistant, AiResponse(clientConfigured, outcome))]
      ensures !answered ==> chatMessages == old(chatMessages)
      ensures selectedZoneId == old(selectedZoneId) && selectedSpillId == old(selectedSpillId)
      ensures cleanupStatus == old(cleanupStatus)
    {
      answered := query != "" && ContextSpillFound();
      if answered {
        chatMessages := chatMessages + [ChatMessage(User, query)];
        var answer := AiResponse(clientConfigured, outcome);
        chatMessages := chatMessages + [ChatMessage(Assistant, answer)];
      }
    }
  }
}
