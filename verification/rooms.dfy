/** dispatch.py: the gates of `RoomForwards`, as the objects the tasks share. */
module Rooms {
  import opened Options

  type TaskId = nat
  /** A room id; events without a room share the `None` gate. */
  type RoomId = Option<string>

  /** Which tasks own each mapped room: what a caller can observe of `_rooms`. */
  type Ownership = map<RoomId, set<TaskId>>

  /** `accepted` on entry: the task joins its room's owners, opening the room if needed. */
  function Joined(owned: Ownership, room: RoomId, task: TaskId): Ownership {
    owned[room := (if room in owned then owned[room] else {}) + {task}]
  }

  /** `accepted` on exit: the last owner takes the room with it. */
  function Left(owned: Ownership, room: RoomId, task: TaskId): Ownership
    requires room in owned
  {
    if owned[room] - {task} == {} then owned - {room} else owned[room := owned[room] - {task}]
  }

  /** A task that joins and settles leaves the ownership it found. */
  lemma JoinThenLeave(owned: Ownership, room: RoomId, task: TaskId)
    requires room in owned ==> owned[room] != {} && task !in owned[room]
    ensures Left(Joined(owned, room, task), room, task) == owned
  {
    var joined := Joined(owned, room, task);
    if room in owned {
      assert joined[room] - {task} == owned[room];
      assert joined[room := owned[room]] == owned;
    } else {
      assert joined[room] - {task} == {};
      assert joined - {room} == owned;
    }
  }

  /** One serialization gate, shared by every accepted holder and waiter of a room. */
  class RoomWork {
    var tasks: set<TaskId>

    constructor ()
      ensures tasks == {}
    {
      tasks := {};
    }
  }

  class RoomForwards {
    var rooms: map<RoomId, RoomWork>

    /** Rooms never share a gate, and a mapped gate always has an owner. */
    ghost predicate Valid()
      reads this, rooms.Values
    {
      && (forall r, q :: r in rooms && q in rooms && rooms[r] == rooms[q] ==> r == q)
      && (forall r :: r in rooms ==> rooms[r].tasks != {})
    }

    ghost function Owned(): Ownership
      reads this, rooms.Values
    {
      map r | r in rooms :: rooms[r].tasks
    }

    constructor ()
      ensures Valid() && Owned() == map[]
    {
      rooms := map[];
    }

    /** Entry of `accepted`: a mapped gate is reused, a missing one is created. */
    method Accept(task: TaskId, room: RoomId) returns (gate: RoomWork)
      requires Valid()
      modifies this, rooms.Values
      ensures Valid() && Owned() == Joined(old(Owned()), room, task)
      ensures room in rooms && rooms[room] == gate
      ensures gate.tasks == (if room in old(rooms) then old(rooms[room].tasks) else {}) + {task}
      ensures if room in old(rooms) then rooms == old(rooms)
              else fresh(gate) && rooms == old(rooms)[room := gate]
    {
      if room in rooms {
        gate := rooms[room];
      } else {
        gate := new RoomWork();
        rooms := rooms[room := gate];
      }
      gate.tasks := gate.tasks + {task};
    }

    /** Exit of `accepted`; `remove` and `del` cannot fail for an owner of the mapped gate. */
    method Settle(task: TaskId, room: RoomId, gate: RoomWork)
      requires Valid() && room in rooms && rooms[room] == gate && task in gate.tasks
      modifies this, gate
      ensures Valid() && Owned() == Left(old(Owned()), room, task)
      ensures forall r :: r in rooms ==> r in old(rooms) && rooms[r] == old(rooms[r])
      ensures gate.tasks == old(gate.tasks) - {task} && (room in rooms <==> gate.tasks != {})
      ensures forall r :: r in old(rooms) && r != room ==> r in rooms && rooms[r].tasks == old(rooms[r].tasks)
    {
      gate.tasks := gate.tasks - {task};
      if gate.tasks == {} {
        rooms := rooms - {room};
      }
    }

    /** `cancel`: ask every unfinished owner to stop, keeping room ownership as it is. */
    method Cancel(room: string, done: set<TaskId>) returns (count: nat, asked: set<TaskId>)
      requires Valid()
      ensures asked == if Some(room) in Owned() then Owned()[Some(room)] - done else {}
      ensures count == |asked|
    {
      if Some(room) !in rooms {
        return 0, {};
      }
      var pending := rooms[Some(room)].tasks - done;
      asked := {};
      var rest := pending;
      while rest != {}
        invariant asked !! rest && asked + rest == pending
        decreases rest
      {
        var task :| task in rest;
        asked := asked + {task};
        rest := rest - {task};
      }
      return |pending|, asked;
    }

    /** `active_rooms` is exactly the rooms that own accepted work. */
    method ActiveRooms() returns (active: set<RoomId>)
      requires Valid()
      ensures active == Owned().Keys
    {
      active := rooms.Keys;
    }
  }
}
