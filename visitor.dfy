/**
 * The volume-report visitor: the report objects it allocates and the two
 * fields it updates while a building is traversed, `report` (the root being
 * built) and `currentLevelReport` (the level that rooms are attached to).
 *
 * A level report is a heap object: the one held in `currentLevelReport` is
 * the same object that was appended to `report.levels`, so a room added to
 * the current level shows up in the root report.
 */
module Visitor {
  import opened Buildings
  import opened Reports

  datatype Option<T> = None | Some(value: T)

  /** Report of one level; its `rooms` grow while the level is current. */
  class LevelReport {
    var levelId: string
    var levelName: string
    var totalVolume: real
    var rooms: seq<RoomReport>

    /** What this level report holds. */
    function Summary(): LevelSummary
      reads this
    {
      LevelSummary(levelId, levelName, totalVolume, rooms)
    }
  }

  /** What a sequence of level reports holds, element by element. */
  function Summaries(levels: seq<LevelReport>): (r: seq<LevelSummary>)
    reads levels
    ensures |r| == |levels|
  {
    if levels == [] then []
    else Summaries(levels[..|levels| - 1]) + [levels[|levels| - 1].Summary()]
  }

  /** Position by position, the summaries of level reports are the summaries of each report. */
  lemma {:induction false} SummariesMirror(levels: seq<LevelReport>)
    ensures forall i :: 0 <= i < |levels| ==> Summaries(levels)[i] == levels[i].Summary()
  {
    if levels != [] {
      var init := levels[..|levels| - 1];
      SummariesMirror(init);
      assert forall i :: 0 <= i < |init| ==> levels[i] == init[i];
    }
  }

  /** The root report of one building; its `levels` grow as levels are visited. */
  class VolumeReport {
    var buildingId: string
    var buildingName: string
    var totalVolume: real
    var levels: seq<LevelReport>

    /** What this report holds, through the level reports it refers to. */
    function Summary(): ReportSummary
      reads this, levels
    {
      ReportSummary(buildingId, buildingName, totalVolume, Summaries(levels))
    }
  }

  class VolumeReportVisitor {
    /** The root report being built; null until a building is visited. */
    var report: VolumeReport?
    /** The level report that subsequent rooms are added to; null until a level is visited. */
    var currentLevelReport: LevelReport?

    /**
     * The level reports of the root are distinct objects, and the current
     * level, when it belongs to the root at all, is its last level.
     */
    ghost predicate Valid()
      reads this, report
    {
      report != null ==>
        (forall i, j :: 0 <= i < j < |report.levels| ==> report.levels[i] != report.levels[j]) &&
        (currentLevelReport != null && currentLevelReport in report.levels ==>
          currentLevelReport == report.levels[|report.levels| - 1])
    }

    /** The current level is the last level of the root report. */
    ghost predicate Attached()
      reads this, report
    {
      report != null && currentLevelReport != null && report.levels != [] &&
      report.levels[|report.levels| - 1] == currentLevelReport
    }

    /** What `GetReport` would hand out, as a value; None while `report` is null. */
    ghost function View(): Option<ReportSummary>
      reads this, report, if report != null then report.levels else []
    {
      if report == null then None else Some(report.Summary())
    }

    /** A fresh visitor has neither a report nor a current level. */
    constructor ()
      ensures Valid() && View() == None
      ensures report == null && currentLevelReport == null
    {
      report := null;
      currentLevelReport := null;
    }

    /**
     * Starts a new root report for `building`, replacing any earlier one:
     * ids copied, total from the building volume, no levels yet. The
     * current level is left as it was.
     */
    method VisitBuilding(building: Building)
      requires Valid()
      modifies this
      ensures Valid()
      ensures report != null && fresh(report)
      ensures View() == Some(ReportSummary(building.id, building.name, BuildingVolume(building), []))
      ensures currentLevelReport == old(currentLevelReport)
    {
      report := new VolumeReport;
      report.buildingId := building.id;
      report.buildingName := building.name;
      report.totalVolume := BuildingVolume(building);
      report.levels := [];
    }

    /**
     * Makes a new level report current (ids copied, total from the level
     * volume, no rooms yet) and, when there is a root report, appends it as
     * the root's last level; without a root report nothing is attached.
     */
    method VisitLevel(level: Level)
      requires Valid()
      modifies this, report
      ensures Valid()
      ensures report == old(report)
      ensures currentLevelReport != null && fresh(currentLevelReport)
      ensures currentLevelReport.Summary() == LevelSummary(level.id, level.name, LevelVolume(level), [])
      ensures old(report) == null ==> View() == None
      ensures old(report) != null ==> report.levels == old(report.levels) + [currentLevelReport]
      ensures old(report) != null ==>
        Attached() && View() == Some(WithLevel(old(report.Summary()), currentLevelReport.Summary()))
    {
      currentLevelReport := new LevelReport;
      currentLevelReport.levelId := level.id;
      currentLevelReport.levelName := level.name;
      currentLevelReport.totalVolume := LevelVolume(level);
      currentLevelReport.rooms := [];
      if report != null {
        ghost var levels := report.levels;
        report.levels := report.levels + [currentLevelReport];
        assert report.levels[..|levels|] == levels;
      }
    }

    /**
     * Appends the report of `room` to the current level, if there is one;
     * otherwise the room is dropped. Through the shared level object the
     * room appears in the root report exactly when the current level is the
     * root's last level; nothing else in the root report changes.
     */
    method VisitRoom(room: Room)
      requires Valid()
      modifies currentLevelReport
      ensures Valid()
      ensures report == old(report) && currentLevelReport == old(currentLevelReport)
      ensures currentLevelReport != null ==>
        currentLevelReport.Summary() == old(currentLevelReport.Summary()).(rooms := old(currentLevelReport.rooms) + [RoomReportOf(room)])
      ensures old(Attached()) ==> View() == Some(WithRoom(old(View()).value, RoomReportOf(room)))
      ensures !old(Attached()) ==> View() == old(View())
    {
      if currentLevelReport != null {
        var roomReport := RoomReport(room.id, room.name, RoomVolume(room));
        ghost var levels := if report != null then report.levels else [];
        ghost var n := |levels|;
        assert currentLevelReport !in levels[..if Attached() then n - 1 else n];
        currentLevelReport.rooms := currentLevelReport.rooms + [roomReport];
      }
    }

    /** The root report built so far; null when no building has been visited. */
    method GetReport() returns (r: VolumeReport?)
      ensures r == report
      ensures r == null <==> View() == None
      ensures r != null ==> View() == Some(r.Summary())
    {
      r := report;
    }
  }
}
