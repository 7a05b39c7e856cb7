/**
 * The Building -> Levels -> Rooms hierarchy that the volume report is built
 * from, and the volume calculation for each kind of node.
 *
 * Volumes are exact reals: floating-point rounding of `double` sums is not
 * modelled.
 */
module Buildings {

  /** A leaf of the hierarchy; `cube` is its stored volume. */
  datatype Room = Room(id: string, name: string, cube: real)

  /** A floor of a building, owning its rooms in order. */
  datatype Level = Level(id: string, name: string, rooms: seq<Room>)

  /** The root of the hierarchy, owning its levels in order. */
  datatype Building = Building(id: string, name: string, levels: seq<Level>)

  /** A room's volume is the value stored in it. */
  function RoomVolume(room: Room): real
  {
    room.cube
  }

  /** Sum of the volumes of a sequence of rooms (0 for none). */
  function SumRooms(rooms: seq<Room>): real
  {
    if rooms == [] then 0.0
    else SumRooms(rooms[..|rooms| - 1]) + RoomVolume(rooms[|rooms| - 1])
  }

  /**
   * A level's volume: the sum of the volumes of the rooms directly under it,
   * so 0 for a level without rooms and the stored volume of a level's only room.
   */
  function LevelVolume(level: Level): (v: real)
    ensures level.rooms == [] ==> v == 0.0
    ensures |level.rooms| == 1 ==> v == level.rooms[0].cube
  {
    assert |level.rooms| == 1 ==> SumRooms(level.rooms) == SumRooms([]) + level.rooms[0].cube by {
      if |level.rooms| == 1 {
        assert level.rooms[..0] == [];
      }
    }
    SumRooms(level.rooms)
  }

  /** Every room under the given levels, level by level, each level's rooms in order. */
  function AllRooms(levels: seq<Level>): seq<Room>
  {
    if levels == [] then []
    else AllRooms(levels[..|levels| - 1]) + levels[|levels| - 1].rooms
  }

  /**
   * A building's volume, computed top-down and independently of the levels'
   * totals: the sum of the volumes of every room in the building. It is 0
   * without levels, and the volume of the only level when there is one.
   */
  function BuildingVolume(building: Building): (v: real)
    ensures building.levels == [] ==> v == 0.0
    ensures |building.levels| == 1 ==> v == LevelVolume(building.levels[0])
  {
    assert |building.levels| == 1 ==> AllRooms(building.levels) == building.levels[0].rooms by {
      if |building.levels| == 1 {
        assert building.levels[..0] == [];
        assert AllRooms(building.levels) == [] + building.levels[0].rooms;
      }
    }
    SumRooms(AllRooms(building.levels))
  }

  /** Sum of the levels' own volumes (0 for none). */
  function SumLevelVolumes(levels: seq<Level>): real
  {
    if levels == [] then 0.0
    else SumLevelVolumes(levels[..|levels| - 1]) + LevelVolume(levels[|levels| - 1])
  }

  /** Summing rooms distributes over concatenation. */
  lemma {:induction false} SumRoomsConcat(a: seq<Room>, b: seq<Room>)
    ensures SumRooms(a + b) == SumRooms(a) + SumRooms(b)
  {
    if b == [] {
      assert a + b == a;
    } else {
      assert (a + b)[..|a + b| - 1] == a + b[..|b| - 1];
      SumRoomsConcat(a, b[..|b| - 1]);
    }
  }

  /**
   * The top-down building volume agrees with the sum of the per-level
   * volumes: the two ways of adding up a building give the same number.
   */
  lemma {:induction false} BuildingVolumeIsSumOfLevelVolumes(building: Building)
    ensures BuildingVolume(building) == SumLevelVolumes(building.levels)
  {
    AllRoomsSum(building.levels);
  }

  lemma {:induction false} AllRoomsSum(levels: seq<Level>)
    ensures SumRooms(AllRooms(levels)) == SumLevelVolumes(levels)
  {
    if levels != [] {
      var init := levels[..|levels| - 1];
      AllRoomsSum(init);
      SumRoomsConcat(AllRooms(init), levels[|levels| - 1].rooms);
    }
  }

  /** A room is in `AllRooms(levels)` exactly when it is a room of one of the levels. */
  lemma {:induction false} AllRoomsMembers(levels: seq<Level>)
    ensures forall room :: room in AllRooms(levels) <==> exists level :: level in levels && room in level.rooms
  {
    if levels != [] {
      var init, last := levels[..|levels| - 1], levels[|levels| - 1];
      AllRoomsMembers(init);
      assert levels == init + [last];
    }
  }

  /**
   * With no negative room, a sum of room volumes is never negative and never
   * below the volume of any one of the rooms.
   */
  lemma {:induction false} SumRoomsBounds(rooms: seq<Room>)
    requires forall room :: room in rooms ==> room.cube >= 0.0
    ensures 0.0 <= SumRooms(rooms)
    ensures forall room :: room in rooms ==> room.cube <= SumRooms(rooms)
  {
    if rooms != [] {
      var init, last := rooms[..|rooms| - 1], rooms[|rooms| - 1];
      assert rooms == init + [last];
      SumRoomsBounds(init);
    }
  }

  /** With no negative room, a level's volume is at least that of each of its rooms. */
  lemma LevelVolumeBounds(level: Level)
    requires forall room :: room in level.rooms ==> room.cube >= 0.0
    ensures 0.0 <= LevelVolume(level)
    ensures forall room :: room in level.rooms ==> room.cube <= LevelVolume(level)
  {
    SumRoomsBounds(level.rooms);
  }

  /** With no negative room, a building's volume is at least that of every room on every level. */
  lemma BuildingVolumeBounds(building: Building)
    requires forall level, room :: level in building.levels && room in level.rooms ==> room.cube >= 0.0
    ensures 0.0 <= BuildingVolume(building)
    ensures forall level, room :: level in building.levels && room in level.rooms ==> room.cube <= BuildingVolume(building)
  {
    AllRoomsMembers(building.levels);
    SumRoomsBounds(AllRooms(building.levels));
  }
}
