/**
 * The double-dispatch traversal that drives the visitor: the building is
 * visited first, then each level in order, each level followed by its rooms
 * in order, and the finished report is read back from the visitor.
 */
module Traversal {
  import opened Buildings
  import opened Reports
  import opened Visitor

  /**
   * Visits `rooms` in order. Each room goes to the current level, if there
   * is one. Through that shared object the root report shows all of them at
   * the end of its last level exactly when the current level is that level;
   * otherwise the root report does not change.
   */
  method AcceptRooms(rooms: seq<Room>, visitor: VolumeReportVisitor)
    requires visitor.Valid()
    modifies visitor.currentLevelReport
    ensures visitor.Valid()
    ensures visitor.report == old(visitor.report) && visitor.currentLevelReport == old(visitor.currentLevelReport)
    ensures visitor.currentLevelReport != null ==>
      visitor.currentLevelReport.Summary() ==
        old(visitor.currentLevelReport.Summary()).(rooms := old(visitor.currentLevelReport.rooms) + RoomReportsOf(rooms))
    ensures old(visitor.Attached()) ==> visitor.View() == Some(WithRooms(old(visitor.View()).value, RoomReportsOf(rooms)))
    ensures !old(visitor.Attached()) ==> visitor.View() == old(visitor.View())
  {
    ghost var attached := visitor.Attached();
    ghost var start := visitor.View();
    ghost var reports: seq<RoomReport> := [];
    if attached {
      WithNoRooms(start.value);
    }
    var j := 0;
    while j < |rooms|
      invariant 0 <= j <= |rooms|
      invariant visitor.Valid()
      invariant visitor.report == old(visitor.report) && visitor.currentLevelReport == old(visitor.currentLevelReport)
      invariant reports == RoomReportsOf(rooms[..j])
      invariant visitor.currentLevelReport != null ==>
        visitor.currentLevelReport.Summary() ==
          old(visitor.currentLevelReport.Summary()).(rooms := old(visitor.currentLevelReport.rooms) + reports)
      invariant attached ==> visitor.Attached() && visitor.View() == Some(WithRooms(start.value, reports))
      invariant !attached ==> !visitor.Attached() && visitor.View() == start
    {
      ghost var room := RoomReportOf(rooms[j]);
      visitor.VisitRoom(rooms[j]);
      assert rooms[..j + 1][..j] == rooms[..j];
      if attached {
        WithRoomAfterWithRooms(start.value, reports, room);
      }
      reports := reports + [room];
      j := j + 1;
    }
    assert rooms[..j] == rooms;
  }

  /**
   * Walks `level` with `visitor`: the level first, then its rooms in order.
   * With a root report present, the root gains exactly one last level, the
   * level's finished report, and nothing else in the root changes; without
   * one, the visitor still has no report. Either way the current level is a
   * new level report holding that finished report, attached to the root
   * when there is one.
   */
  method AcceptLevel(level: Level, visitor: VolumeReportVisitor)
    requires visitor.Valid()
    modifies visitor, visitor.report
    ensures visitor.Valid() && visitor.report == old(visitor.report)
    ensures visitor.currentLevelReport != null && fresh(visitor.currentLevelReport)
    ensures visitor.currentLevelReport.Summary() == LevelSummaryOf(level)
    ensures old(visitor.report) != null ==> visitor.Attached()
    ensures old(visitor.report) == null ==> visitor.View() == None
    ensures old(visitor.report) != null ==>
      visitor.report.levels == old(visitor.report.levels) + [visitor.currentLevelReport]
    ensures old(visitor.report) != null ==>
      visitor.View() == Some(WithLevel(old(visitor.report.Summary()), LevelSummaryOf(level)))
  {
    ghost var before := if visitor.report != null then visitor.report.Summary() else ReportSummary("", "", 0.0, []);
    visitor.VisitLevel(level);
    AcceptRooms(level.rooms, visitor);
    if visitor.report != null {
      WithRoomsAfterWithLevel(before, LevelSummary(level.id, level.name, LevelVolume(level), []), RoomReportsOf(level.rooms));
      assert [] + RoomReportsOf(level.rooms) == RoomReportsOf(level.rooms);
    }
  }

  /** Every level report in `levels` was allocated after the old state, checked one element at a time. */
  twostate predicate AllNew(new levels: seq<LevelReport>)
  {
    levels == [] || (AllNew(levels[..|levels| - 1]) && fresh(levels[|levels| - 1]))
  }

  /** Level reports that are new one at a time are all new. */
  twostate lemma {:induction false} AllNewIsFresh(new levels: seq<LevelReport>)
    requires AllNew(levels)
    ensures forall l :: l in levels ==> fresh(l)
  {
    if levels != [] {
      AllNewIsFresh(levels[..|levels| - 1]);
      assert levels == levels[..|levels| - 1] + [levels[|levels| - 1]];
    }
  }

  /**
   * Walks `building` with `visitor`: the building, then each level in order
   * together with its rooms. Whatever the visitor held before, it ends up
   * with a freshly allocated root report whose contents are exactly the
   * expected report of the building. The current level is then the new
   * report of the last level or, for a building without levels, whatever
   * it was before.
   */
  method Accept(building: Building, visitor: VolumeReportVisitor)
    requires visitor.Valid()
    modifies visitor
    ensures visitor.Valid()
    ensures visitor.report != null && fresh(visitor.report)
    ensures forall l :: l in visitor.report.levels ==> fresh(l)
    ensures visitor.View() == Some(ExpectedReport(building))
    ensures building.levels != [] ==> visitor.Attached() && fresh(visitor.currentLevelReport)
    ensures building.levels == [] ==> visitor.currentLevelReport == old(visitor.currentLevelReport)
  {
    visitor.VisitBuilding(building);
    ghost var root := visitor.report;
    ghost var start := ReportSummary(building.id, building.name, BuildingVolume(building), []);
    ghost var done: seq<LevelSummary> := [];
    var i := 0;
    while i < |building.levels|
      invariant 0 <= i <= |building.levels|
      invariant visitor.Valid() && visitor.report == root && fresh(root)
      invariant AllNew(visitor.report.levels)
      invariant i > 0 ==> visitor.Attached() && fresh(visitor.currentLevelReport)
      invariant i == 0 ==> visitor.currentLevelReport == old(visitor.currentLevelReport)
      invariant done == LevelSummariesOf(building.levels[..i])
      invariant visitor.View() == Some(start.(levels := done))
    {
      ghost var summary := LevelSummaryOf(building.levels[i]);
      ghost var prev := visitor.report.levels;
      AcceptLevel(building.levels[i], visitor);
      assert visitor.report.levels[..|prev|] == prev;
      LevelSummariesOfPrefix(building.levels, i);
      done := done + [summary];
      i := i + 1;
    }
    assert building.levels[..i] == building.levels;
    AllNewIsFresh(visitor.report.levels);
  }

  /**
   * How a report is obtained: a fresh visitor, a traversal of the building,
   * then `GetReport`. The result is a new object holding the expected
   * report; two calls on the same building therefore give equal contents.
   */
  method ReportFor(building: Building) returns (report: VolumeReport?)
    ensures report != null && fresh(report)
    ensures forall l :: l in report.levels ==> fresh(l)
    ensures report.Summary() == ExpectedReport(building)
  {
    var visitor := new VolumeReportVisitor();
    Accept(building, visitor);
    report := visitor.GetReport();
  }

  /** `GetReport` on a visitor that has visited nothing yields null. */
  method FreshVisitorReport() returns (report: VolumeReport?)
    ensures report == null
  {
    var visitor := new VolumeReportVisitor();
    report := visitor.GetReport();
  }

  /**
   * Without a building visit there is never a report: the level is made
   * current but attached to nothing, and the room goes to that detached level.
   */
  method VisitsWithoutBuilding(level: Level, room: Room) returns (report: VolumeReport?)
    ensures report == null
  {
    var visitor := new VolumeReportVisitor();
    visitor.VisitLevel(level);
    visitor.VisitRoom(room);
    report := visitor.GetReport();
  }

  /**
   * Visiting a second building does not clear the current level: a room
   * visited next is appended to the last level of the earlier report, which
   * the caller may still hold, and the new report does not receive it.
   */
  method RoomAfterSecondBuilding(first: Building, level: Level, second: Building, room: Room)
    returns (earlier: VolumeReport?, later: VolumeReport?)
    ensures earlier != null && later != null && earlier != later
    ensures earlier.Summary() == ReportSummary(first.id, first.name, BuildingVolume(first),
      [LevelSummary(level.id, level.name, LevelVolume(level), [RoomReportOf(room)])])
    ensures later.Summary() == ReportSummary(second.id, second.name, BuildingVolume(second), [])
  {
    var visitor := new VolumeReportVisitor();
    visitor.VisitBuilding(first);
    visitor.VisitLevel(level);
    earlier := visitor.GetReport();
    ghost var current := visitor.currentLevelReport;
    assert earlier.levels == [current];
    visitor.VisitBuilding(second);
    assert earlier.levels == [current] && current.rooms == [];
    visitor.VisitRoom(room);
    assert current.rooms == [RoomReportOf(room)];
    later := visitor.GetReport();
    assert Summaries(earlier.levels) == [current.Summary()];
  }

  /**
   * A two-level building: a ground floor with a 50 and a 30 room, and an
   * empty roof level.
   */
  function Headquarters(): Building
  {
    Building("B1", "HQ", [
      Level("L1", "Ground", [Room("R1", "Lobby", 50.0), Room("R2", "Hall", 30.0)]),
      Level("L2", "Roof", [])])
  }

  /** The visitor's report of the two-level building, running the traversal on it. */
  method HeadquartersReport() returns (summary: Option<ReportSummary>)
    ensures summary == Some(ReportSummary("B1", "HQ", 80.0, [
      LevelSummary("L1", "Ground", 80.0, [RoomReport("R1", "Lobby", 50.0), RoomReport("R2", "Hall", 30.0)]),
      LevelSummary("L2", "Roof", 0.0, [])]))
  {
    var visitor := new VolumeReportVisitor();
    var building := Headquarters();
    Accept(building, visitor);
    var ground, roof := building.levels[0], building.levels[1];
    assert ground.rooms[..1] == [ground.rooms[0]];
    assert building.levels[..1] == [ground];
    assert AllRooms(building.levels[..1]) == ground.rooms;
    assert RoomReportsOf(ground.rooms) == [RoomReport("R1", "Lobby", 50.0), RoomReport("R2", "Hall", 30.0)];
    assert LevelVolume(ground) == 80.0;
    assert AllRooms(building.levels) == ground.rooms;
    assert BuildingVolume(building) == 80.0;
    assert LevelSummariesOf(building.levels) == [LevelSummaryOf(ground), LevelSummaryOf(roof)];
    var report := visitor.GetReport();
    summary := if report == null then None else Some(report.Summary());
  }
}
