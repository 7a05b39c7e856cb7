/**
 * The report tree as a value: what a finished `VolumeReport` holds, with the
 * heap taken away, and the report a full traversal of a building is expected
 * to produce.
 */
module Reports {
  import opened Buildings

  /** Report of one room: its identity and its volume. */
  datatype RoomReport = RoomReport(roomId: string, roomName: string, volume: real)

  /** The contents of one level report. */
  datatype LevelSummary = LevelSummary(levelId: string, levelName: string, totalVolume: real, rooms: seq<RoomReport>)

  /** The contents of the root report. */
  datatype ReportSummary = ReportSummary(buildingId: string, buildingName: string, totalVolume: real, levels: seq<LevelSummary>)

  /** The root report with one more (last) level. */
  function WithLevel(report: ReportSummary, level: LevelSummary): ReportSummary
  {
    report.(levels := report.levels + [level])
  }

  /** The root report with one more room at the end of its last level; nothing else differs. */
  function WithRoom(report: ReportSummary, room: RoomReport): ReportSummary
    requires report.levels != []
  {
    var n := |report.levels|;
    var last := report.levels[n - 1];
    report.(levels := report.levels[..n - 1] + [last.(rooms := last.rooms + [room])])
  }

  /** Adding a level: exactly one more level, placed last; everything already there is kept. */
  lemma WithLevelAppendsOne(report: ReportSummary, level: LevelSummary)
    ensures var r := WithLevel(report, level);
      |r.levels| == |report.levels| + 1 && r.levels[|report.levels|] == level &&
      r.levels[..|report.levels|] == report.levels &&
      r.buildingId == report.buildingId && r.buildingName == report.buildingName &&
      r.totalVolume == report.totalVolume
  {
  }

  /** Adding a room: only the last level changes, and it gains exactly that room at the end. */
  lemma WithRoomChangesLastLevelOnly(report: ReportSummary, room: RoomReport)
    requires report.levels != []
    ensures var r, n := WithRoom(report, room), |report.levels|;
      |r.levels| == n && r.levels[..n - 1] == report.levels[..n - 1] &&
      r.levels[n - 1] == report.levels[n - 1].(rooms := report.levels[n - 1].rooms + [room]) &&
      r.buildingId == report.buildingId && r.buildingName == report.buildingName &&
      r.totalVolume == report.totalVolume
  {
  }

  /** The root report with `rooms` appended, in order, to its last level; nothing else differs. */
  function WithRooms(report: ReportSummary, rooms: seq<RoomReport>): ReportSummary
    requires report.levels != []
  {
    var n := |report.levels|;
    var last := report.levels[n - 1];
    report.(levels := report.levels[..n - 1] + [last.(rooms := last.rooms + rooms)])
  }

  /** Adding no rooms changes nothing. */
  lemma WithNoRooms(report: ReportSummary)
    requires report.levels != []
    ensures WithRooms(report, []) == report
  {
    var n := |report.levels|;
    var last := report.levels[n - 1];
    assert last.rooms + [] == last.rooms;
    assert report.levels[..n - 1] + [last] == report.levels;
  }

  /** Adding rooms one by one is adding them all at once. */
  lemma WithRoomAfterWithRooms(report: ReportSummary, rooms: seq<RoomReport>, room: RoomReport)
    requires report.levels != []
    ensures WithRooms(report, rooms).levels != []
    ensures WithRoom(WithRooms(report, rooms), room) == WithRooms(report, rooms + [room])
  {
    var n := |report.levels|;
    assert WithRooms(report, rooms).levels[..n - 1] == report.levels[..n - 1];
    assert report.levels[n - 1].rooms + rooms + [room] == report.levels[n - 1].rooms + (rooms + [room]);
  }

  /** Adding a level and then rooms to it is adding the level with those rooms already in it. */
  lemma WithRoomsAfterWithLevel(report: ReportSummary, level: LevelSummary, rooms: seq<RoomReport>)
    ensures WithRooms(WithLevel(report, level), rooms) == WithLevel(report, level.(rooms := level.rooms + rooms))
  {
    assert WithLevel(report, level).levels[..|report.levels|] == report.levels;
  }

  /** The report of a single room: its id and name copied, its volume the stored one. */
  function RoomReportOf(room: Room): RoomReport
  {
    RoomReport(room.id, room.name, RoomVolume(room))
  }

  /** The reports of a sequence of rooms, in order. */
  function RoomReportsOf(rooms: seq<Room>): seq<RoomReport>
  {
    if rooms == [] then []
    else RoomReportsOf(rooms[..|rooms| - 1]) + [RoomReportOf(rooms[|rooms| - 1])]
  }

  /** The finished report of one level. */
  function LevelSummaryOf(level: Level): LevelSummary
  {
    LevelSummary(level.id, level.name, LevelVolume(level), RoomReportsOf(level.rooms))
  }

  /** The finished reports of a sequence of levels, in order. */
  function LevelSummariesOf(levels: seq<Level>): seq<LevelSummary>
  {
    if levels == [] then []
    else LevelSummariesOf(levels[..|levels| - 1]) + [LevelSummaryOf(levels[|levels| - 1])]
  }

  /** The finished reports of the first `i + 1` levels extend those of the first `i` by one. */
  lemma LevelSummariesOfPrefix(levels: seq<Level>, i: nat)
    requires i < |levels|
    ensures LevelSummariesOf(levels[..i + 1]) == LevelSummariesOf(levels[..i]) + [LevelSummaryOf(levels[i])]
  {
    assert levels[..i + 1][..i] == levels[..i];
  }

  /** The report that a full traversal of `building` is expected to leave behind. */
  function ExpectedReport(building: Building): ReportSummary
  {
    ReportSummary(building.id, building.name, BuildingVolume(building), LevelSummariesOf(building.levels))
  }

  /** Sum of the volumes of a sequence of room reports (0 for none). */
  function SumRoomReports(rooms: seq<RoomReport>): real
  {
    if rooms == [] then 0.0
    else SumRoomReports(rooms[..|rooms| - 1]) + rooms[|rooms| - 1].volume
  }

  /** Sum of the total volumes of a sequence of level reports (0 for none). */
  function SumLevelSummaries(levels: seq<LevelSummary>): real
  {
    if levels == [] then 0.0
    else SumLevelSummaries(levels[..|levels| - 1]) + levels[|levels| - 1].totalVolume
  }

  /** Room reports mirror their rooms one for one, in order, with id, name and volume passed through. */
  lemma {:induction false} RoomReportsMirrorRooms(rooms: seq<Room>)
    ensures |RoomReportsOf(rooms)| == |rooms|
    ensures forall j :: 0 <= j < |rooms| ==>
      RoomReportsOf(rooms)[j].roomId == rooms[j].id &&
      RoomReportsOf(rooms)[j].roomName == rooms[j].name &&
      RoomReportsOf(rooms)[j].volume == rooms[j].cube
  {
    if rooms != [] {
      RoomReportsMirrorRooms(rooms[..|rooms| - 1]);
    }
  }

  /** Level reports mirror their levels one for one, in order. */
  lemma {:induction false} LevelSummariesMirrorLevels(levels: seq<Level>)
    ensures |LevelSummariesOf(levels)| == |levels|
    ensures forall i :: 0 <= i < |levels| ==> LevelSummariesOf(levels)[i] == LevelSummaryOf(levels[i])
  {
    if levels != [] {
      LevelSummariesMirrorLevels(levels[..|levels| - 1]);
    }
  }

  /**
   * Shape isomorphism: the expected report has as many levels as the building,
   * each with as many rooms as the level it reports on, in the same order,
   * and every id and name is copied unchanged.
   */
  lemma ExpectedReportMirrorsBuilding(building: Building)
    ensures var report := ExpectedReport(building);
      report.buildingId == building.id && report.buildingName == building.name &&
      |report.levels| == |building.levels| &&
      forall i :: 0 <= i < |building.levels| ==>
        var lr, level := report.levels[i], building.levels[i];
        lr.levelId == level.id && lr.levelName == level.name &&
        |lr.rooms| == |level.rooms| &&
        forall j :: 0 <= j < |level.rooms| ==>
          lr.rooms[j].roomId == level.rooms[j].id &&
          lr.rooms[j].roomName == level.rooms[j].name &&
          lr.rooms[j].volume == level.rooms[j].cube
  {
    LevelSummariesMirrorLevels(building.levels);
    forall i | 0 <= i < |building.levels| {
      RoomReportsMirrorRooms(building.levels[i].rooms);
    }
  }

  /** The room reports of a level add up to the level's volume. */
  lemma {:induction false} SumOfRoomReports(rooms: seq<Room>)
    ensures SumRoomReports(RoomReportsOf(rooms)) == SumRooms(rooms)
  {
    if rooms != [] {
      var init := rooms[..|rooms| - 1];
      SumOfRoomReports(init);
      assert RoomReportsOf(rooms)[..|rooms| - 1] == RoomReportsOf(init) by {
        RoomReportsMirrorRooms(init);
      }
    }
  }

  /** The level reports' totals add up to the levels' volumes. */
  lemma {:induction false} SumOfLevelSummaries(levels: seq<Level>)
    ensures SumLevelSummaries(LevelSummariesOf(levels)) == SumLevelVolumes(levels)
  {
    if levels != [] {
      var init := levels[..|levels| - 1];
      SumOfLevelSummaries(init);
      assert LevelSummariesOf(levels)[..|levels| - 1] == LevelSummariesOf(init) by {
        LevelSummariesMirrorLevels(init);
      }
    }
  }

  /**
   * Volume consistency of the expected report: each level's total is the sum
   * of its room reports' volumes (0 for an empty level), and the building's
   * independently computed total is both the sum of the levels' totals and
   * the sum of every room's volume.
   */
  lemma ExpectedReportVolumesAgree(building: Building)
    ensures var report := ExpectedReport(building);
      (forall i :: 0 <= i < |report.levels| ==>
        report.levels[i].totalVolume == SumRoomReports(report.levels[i].rooms)) &&
      report.totalVolume == SumLevelSummaries(report.levels) &&
      report.totalVolume == SumRooms(AllRooms(building.levels))
  {
    var report := ExpectedReport(building);
    LevelSummariesMirrorLevels(building.levels);
    forall i | 0 <= i < |report.levels|
      ensures report.levels[i].totalVolume == SumRoomReports(report.levels[i].rooms)
    {
      SumOfRoomReports(building.levels[i].rooms);
    }
    SumOfLevelSummaries(building.levels);
    BuildingVolumeIsSumOfLevelVolumes(building);
  }

  /** A building without levels reports a zero total and no levels. */
  lemma EmptyBuildingReport(building: Building)
    requires building.levels == []
    ensures ExpectedReport(building).totalVolume == 0.0
    ensures ExpectedReport(building).levels == []
  {
  }
}
