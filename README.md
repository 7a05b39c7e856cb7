# Volume report visitor, modelled in Dafny

This project models the volume-report visitor of a building-structure service.
A building holds ordered levels, and each level holds ordered rooms. The
visitor is driven by a traversal of that tree, which visits the building,
then each level followed by that level's rooms. While it runs, the visitor
builds a parallel report tree: a `VolumeReport` for the building, then a
`LevelReport` per level and a `RoomReport` per room. Each node of that tree
carries ids, names and a volume.

The visitor keeps two mutable fields:

- `report` is the root being built. Visiting a building replaces it with a
  fresh root.
- `currentLevelReport` is the level that rooms are attached to. Visiting a
  level replaces it with a fresh level report. When a root exists, that
  level report is also appended to the root's `levels`.

A room is appended to the current level, or dropped when there is none. The
current level report is the same heap object as the one in `report.levels`,
so rooms added to it show up in the root.

Files:

- `buildings.dfy` (module `Buildings`): the Building/Level/Room entities and
  the volume calculation. A room's volume is its stored `cube`. A level's
  volume is the sum of its rooms' volumes. A building's volume is the sum of
  every room's volume, computed top-down.
- `reports.dfy` (module `Reports`): the report tree as a value. It also
  defines `ExpectedReport`, the report a full traversal must produce, and
  the lemmas about it: shape isomorphism, pass-through of ids and names,
  and volume consistency.
- `visitor.dfy` (module `Visitor`): the classes `LevelReport`,
  `VolumeReport` and `VolumeReportVisitor`. The visitor's `Valid()` says two
  things. The root's level reports are distinct objects. The current level,
  when it is in the root at all, is the root's last level. `View()` reads
  the root through the heap. `VisitBuilding` states the new `View()` outright;
  `VisitLevel` and `VisitRoom` state it in terms of the old one, and
  `VisitLevel` also states which object is appended to the root's `levels`.
- `traversal.dfy` (module `Traversal`): the traversal that drives the
  visitor (`Accept`, `AcceptLevel`, `AcceptRooms`), how a report is obtained (`ReportFor`),
  and client methods for the edge cases and a concrete two-level building.

Two fresh visitors run over the same building give reports with equal
contents. This follows from `ReportFor`: its result is always
`ExpectedReport(building)`, which is a function of the building alone.

`RoomVolume`, `RoomReportOf` and the `Summary` functions of the two report
classes are definitions, so their rows are the lemmas and methods that state
what they mean. `RoomReportsMirrorRooms` and `ExpectedReportMirrorsBuilding`
state that a room report copies the room's id and name and carries its
`cube`. `VisitRoom` states that a visited room adds `RoomReportOf(room)`.
`SummariesMirror`, together with `VisitBuilding`, `VisitLevel` and `Accept`,
states what the report objects hold, read through `Summary`.

Behaviour worth knowing, taken from the code: `visit(Building)` does not
clear `currentLevelReport`. A visitor that is reused can therefore hold a
current level from an earlier report. A room visited before the next level
goes to that stale level and mutates the earlier report.
`Traversal.RoomAfterSecondBuilding` states this. The Javadoc of
`visit(Room)` calls a non-null current level a precondition, but the code
checks for null and drops the room. The model follows the code.

## Model

| member | source | states |
|---|---|---|
| `Buildings.LevelVolume` | ioprojectarchitecture/ioprojectarchitecture/src/main/java/pl/put/poznan/transformer/rest/VolumeReportVisitor.java:128-137 | a level without rooms has volume 0, and a level with one room has that room's stored volume |
| `Buildings.BuildingVolume` | ioprojectarchitecture/ioprojectarchitecture/src/main/java/pl/put/poznan/transformer/rest/VolumeReportVisitor.java:103-113 | a building without levels has volume 0, and a building with one level has that level's volume |
| `Buildings.AllRoomsMembers` | ioprojectarchitecture/ioprojectarchitecture/src/main/java/pl/put/poznan/transformer/rest/VolumeReportVisitor.java:97-98 | the rooms summed for the building are exactly the rooms of its levels |
| `Buildings.SumRoomsBounds` | ioprojectarchitecture/ioprojectarchitecture/src/main/java/pl/put/poznan/transformer/rest/VolumeReportVisitor.java:57 | with no negative room, a sum of room volumes is at least 0 and at least each room's volume |
| `Buildings.LevelVolumeBounds` | ioprojectarchitecture/ioprojectarchitecture/src/main/java/pl/put/poznan/transformer/rest/VolumeReportVisitor.java:57-58 | with no negative room, a level's volume is at least 0 and at least each of its rooms' volumes |
| `Buildings.BuildingVolumeBounds` | ioprojectarchitecture/ioprojectarchitecture/src/main/java/pl/put/poznan/transformer/rest/VolumeReportVisitor.java:35-36 | with no negative room, a building's volume is at least 0 and at least the volume of every room on every level |
| `Buildings.BuildingVolumeIsSumOfLevelVolumes` | ioprojectarchitecture/ioprojectarchitecture/src/main/java/pl/put/poznan/transformer/rest/VolumeReportVisitor.java:103-113 | the building volume, computed top-down over all rooms, equals the sum of the levels' volumes |
| `Buildings.SumRoomsConcat` | ioprojectarchitecture/ioprojectarchitecture/src/main/java/pl/put/poznan/transformer/rest/VolumeReportVisitor.java:57 | the room-volume sum of two sequences of rooms placed end to end is the sum of their two sums |
| `Reports.WithLevelAppendsOne` | ioprojectarchitecture/ioprojectarchitecture/src/main/java/pl/put/poznan/transformer/rest/VolumeReportVisitor.java:139-141 | adding a level gives exactly one more level, placed last; the earlier levels, ids, names and total are kept |
| `Reports.WithRoomChangesLastLevelOnly` | ioprojectarchitecture/ioprojectarchitecture/src/main/java/pl/put/poznan/transformer/rest/VolumeReportVisitor.java:167 | adding a room changes only the last level, whose rooms gain exactly that room at the end; ids, names, totals and the other levels are kept |
| `Reports.RoomReportsMirrorRooms` | ioprojectarchitecture/ioprojectarchitecture/src/main/java/pl/put/poznan/transformer/rest/VolumeReportVisitor.java:163-166 | one room report per room, in order, with id, name and stored volume copied |
| `Reports.LevelSummariesMirrorLevels` | ioprojectarchitecture/ioprojectarchitecture/src/main/java/pl/put/poznan/transformer/rest/VolumeReportVisitor.java:134-140 | one level report per level, in order, each the finished report of its level |
| `Reports.ExpectedReportMirrorsBuilding` | ioprojectarchitecture/ioprojectarchitecture/src/main/java/pl/put/poznan/transformer/rest/VolumeReportVisitor.java:110-167 | the finished report matches the building: same level count, same room count per level, same order, all ids and names unchanged |
| `Reports.SumOfRoomReports` | ioprojectarchitecture/ioprojectarchitecture/src/main/java/pl/put/poznan/transformer/rest/VolumeReportVisitor.java:128-137 | the volumes of a level's room reports add up to the level's volume |
| `Reports.SumOfLevelSummaries` | ioprojectarchitecture/ioprojectarchitecture/src/main/java/pl/put/poznan/transformer/rest/VolumeReportVisitor.java:134-140 | the totals of the level reports add up to the sum of the levels' volumes |
| `Reports.ExpectedReportVolumesAgree` | ioprojectarchitecture/ioprojectarchitecture/src/main/java/pl/put/poznan/transformer/rest/VolumeReportVisitor.java:35-61 | each level total equals the sum of its room reports (0 when empty); the building total equals the sum of the level totals and the sum of all room volumes |
| `Reports.EmptyBuildingReport` | ioprojectarchitecture/ioprojectarchitecture/src/main/java/pl/put/poznan/transformer/rest/VolumeReportVisitor.java:109-115 | a building without levels reports total 0 and no levels |
| `Visitor.SummariesMirror` | ioprojectarchitecture/ioprojectarchitecture/src/main/java/pl/put/poznan/transformer/rest/VolumeReportVisitor.java:38-39 | the level values of a root are, position by position, the values of its level report objects |
| `Visitor.VolumeReportVisitor.constructor` | ioprojectarchitecture/ioprojectarchitecture/src/main/java/pl/put/poznan/transformer/rest/VolumeReportVisitor.java:82-89 | a new visitor has no report and no current level |
| `Visitor.VolumeReportVisitor.VisitBuilding` | ioprojectarchitecture/ioprojectarchitecture/src/main/java/pl/put/poznan/transformer/rest/VolumeReportVisitor.java:108-115 | report becomes a fresh root: ids copied, total is the building volume, no levels; any earlier root is replaced; the current level is untouched |
| `Visitor.VolumeReportVisitor.VisitLevel` | ioprojectarchitecture/ioprojectarchitecture/src/main/java/pl/put/poznan/transformer/rest/VolumeReportVisitor.java:132-142 | a fresh level report becomes current, with ids copied, total the level volume and no rooms; with a root that very object is appended to the root's `levels` as its one new last level; without one the report stays absent |
| `Visitor.VolumeReportVisitor.VisitRoom` | ioprojectarchitecture/ioprojectarchitecture/src/main/java/pl/put/poznan/transformer/rest/VolumeReportVisitor.java:160-169 | with a current level, its rooms gain one report (id, name, stored volume); the root shows it in its last level exactly when the current level is that level, and nothing else in the root changes; with no current level nothing changes |
| `Visitor.VolumeReportVisitor.GetReport` | ioprojectarchitecture/ioprojectarchitecture/src/main/java/pl/put/poznan/transformer/rest/VolumeReportVisitor.java:179-183 | returns the root report, null exactly when no building has been visited |
| `Traversal.AcceptRooms` | ioprojectarchitecture/ioprojectarchitecture/src/main/java/pl/put/poznan/transformer/rest/VolumeReportVisitor.java:144-169 | rooms visited in order all go to the current level, in order; the root shows them at the end of its last level exactly when the current level is that level, and otherwise does not change |
| `Traversal.AcceptLevel` | ioprojectarchitecture/ioprojectarchitecture/src/main/java/pl/put/poznan/transformer/rest/VolumeReportVisitor.java:117-149 | the level and then its rooms, once each: the root keeps its earlier level objects and gains one freshly allocated level object, holding that level's finished report, as its last level, and nothing else in the root changes; with no root, no report comes into being. Either way the current level becomes a fresh level report holding that finished report, attached to the root when there is one |
| `Traversal.Accept` | ioprojectarchitecture/ioprojectarchitecture/src/main/java/pl/put/poznan/transformer/rest/VolumeReportVisitor.java:94-98 | the building, then each level with its rooms in order: the visitor ends with a fresh root, every level object of which is also freshly allocated, whose contents are exactly the expected report; the current level is then the fresh, attached report of the last level, or, for a building without levels, what it was before |
| `Traversal.ReportFor` | ioprojectarchitecture/ioprojectarchitecture/src/main/java/pl/put/poznan/transformer/rest/VolumeReportVisitor.java:171-183 | a fresh visitor, a traversal and `getReport` give a new, non-null report holding the expected report; none of its level objects existed before the call, so reports from two calls share no level objects |
| `Traversal.FreshVisitorReport` | ioprojectarchitecture/ioprojectarchitecture/src/main/java/pl/put/poznan/transformer/rest/VolumeReportVisitor.java:179-183 | `getReport` on a visitor that has visited nothing yields null |
| `Traversal.VisitsWithoutBuilding` | ioprojectarchitecture/ioprojectarchitecture/src/main/java/pl/put/poznan/transformer/rest/VolumeReportVisitor.java:139-141 | visiting a level and a room without a building leaves no report |
| `Traversal.RoomAfterSecondBuilding` | ioprojectarchitecture/ioprojectarchitecture/src/main/java/pl/put/poznan/transformer/rest/VolumeReportVisitor.java:109-167 | after a second building visit, a room goes to the stale current level of the earlier report, and the new report has no levels |
| `Traversal.HeadquartersReport` | ioprojectarchitecture/ioprojectarchitecture/src/main/java/pl/put/poznan/transformer/rest/VolumeReportVisitor.java:108-169 | a ground floor holding rooms of 50 and 30 plus an empty roof: total 80, ground 80, roof 0, rooms in order |

## Left out

- The entity classes, `accept` and `calculateVolume` of `BuildingClasses` are not part of this model. They are re-specified from the visitor's doc comments as the datatypes and functions of `Buildings` and the methods `Accept`, `AcceptLevel` and `AcceptRooms`.
- Changes made from outside to the `levels` list of the report that `getReport` hands out while a traversal is still running are not modelled. Every `Visit…` method requires `Valid()`, and only such changes could break it: a level report listed twice, or a current level that is no longer last.
- Null level or room lists in the entities are not modelled: a Dafny `seq` cannot be null, so such a list is already the empty sequence. Null ids or names are not modelled either: the code copies them through as they are, but a Dafny `string` cannot be null.
- Volumes are exact reals. IEEE `double` rounding and summation order are not modelled, so the sums agree exactly in the model. With `double` they might differ in the last bits.
- `RoomReport` is a value (datatype), not a heap object: the code never changes a room report after appending it, so nothing depends on its identity.
- `ArrayList` fields are `seq` fields that the methods reassign. A list that is `null` is not modelled; the code never leaves one null after creating its owner.
- JSON serialisation, including the omission of null fields, is not modelled. The absent report is `null` (or `None` in `View()`).
- The Spring Boot application class and the REST plumbing are not modelled. Negative volumes are not validated, as in the code.
