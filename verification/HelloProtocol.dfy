/** Hello bookkeeping: who was heard when, who is linked, and who is fit to be a candidate. */
module HelloProtocol {
  import opened Wrappers
  import opened Election

  /** Claims are sets here: nobody looks at the order they are written in. */
  datatype Hello = Hello(
    deviceId: GrainId,
    priority: U8,
    availability: Option<U8>,
    hosting: seq<GrainId>,
    primary: set<GrainId>,
    secondary: set<GrainId>)

  /** What the ledger says of a device. Only one with a node id can be dialed. */
  datatype Device = Device(id: GrainId, retired: bool, nodeId: Option<string>)

  /** Time on one host's monotonic clock; an interval that would be negative is zero. */
  function Elapsed(from: int, now: int): nat {
    if now > from then now - from else 0
  }

  ghost predicate Active(ledger: seq<Device>, id: GrainId) {
    exists d :: d in ledger && d.id == id && !d.retired
  }

  /** All that matters of a link's task is which it is. */
  type Task = nat

  function TasksOf(tasks: map<GrainId, seq<Task>>, device: GrainId): seq<Task> {
    if device in tasks then tasks[device] else []
  }

  /** The devices this host dials, in the ledger's order: those of higher ids not linked yet, each once. */
  function ToDial(me: GrainId, ledger: seq<Device>, linked: set<GrainId>): (r: seq<GrainId>)
    ensures forall id :: id in r <==>
      id > me && id !in linked && exists d :: d in ledger && d.id == id && !d.retired && d.nodeId.Some?
    ensures forall i, j | 0 <= i < j < |r| :: r[i] != r[j]
  {
    if ledger == [] then []
    else
      var front, last := ledger[..|ledger| - 1], ledger[|ledger| - 1];
      var before := ToDial(me, front, linked);
      assert ledger == front + [last];
      if last.id > me && !last.retired && last.nodeId.Some? && last.id !in linked && last.id !in before
      then before + [last.id]
      else before
  }

  /** The retired devices of the first `n` records. */
  function Retired(ledger: seq<Device>, n: nat): set<GrainId>
    requires n <= |ledger|
  {
    set i | 0 <= i < n && ledger[i].retired :: ledger[i].id
  }

  /**
   * Three tables by device: its latest Hello with the time it came, whether this host dialed it,
   * and the tasks of its links, whichever side opened them.
   */
  class Neighbours {
    var heard: map<GrainId, (Hello, int)>
    var links: set<GrainId>
    var tasks: map<GrainId, seq<Task>>

    /** Every Hello is filed under the device it names. */
    ghost predicate Valid()
      reads this
    {
      forall id | id in heard :: heard[id].0.deviceId == id
    }

    constructor ()
      ensures Valid() && heard == map[] && links == {} && tasks == map[]
    {
      heard, links, tasks := map[], {}, map[];
    }

    method Heard(hello: Hello, at: int)
      requires Valid()
      modifies this`heard
      ensures Valid() && heard == old(heard)[hello.deviceId := (hello, at)]
    {
      heard := heard[hello.deviceId := (hello, at)];
    }

    method Forget(device: GrainId)
      requires Valid()
      modifies this`heard
      ensures Valid() && heard == old(heard) - {device}
    {
      heard := heard - {device};
    }

    /** False when the device is linked already. */
    method BeginLink(device: GrainId) returns (begun: bool)
      modifies this`links
      ensures begun == (device !in old(links)) && links == old(links) + {device}
    {
      begun := device !in links;
      links := links + {device};
    }

    method EndLink(device: GrainId)
      modifies this`links
      ensures links == old(links) - {device}
    {
      links := links - {device};
    }

    /** Remember a link's task, and drop those that are `finished`. */
    method Track(device: GrainId, task: Task, finished: set<Task>)
      modifies this`tasks
      ensures tasks == old(tasks)[device := Filter(TasksOf(old(tasks), device), (t: Task) => t !in finished) + [task]]
    {
      var running := Filter(TasksOf(tasks, device), (t: Task) => t !in finished);
      tasks := tasks[device := running + [task]];
    }

    /** End every link with a device, and forget it; nothing happens without one. */
    method Cut(device: GrainId) returns (aborted: seq<Task>)
      requires Valid()
      modifies this
      ensures Valid()
      ensures aborted == TasksOf(old(tasks), device)
      ensures tasks == old(tasks) - {device}
      ensures if device in old(tasks) then heard == old(heard) - {device} && links == old(links) - {device}
              else heard == old(heard) && links == old(links)
    {
      if device !in tasks {
        return [];
      }
      aborted := tasks[device];
      tasks := tasks - {device};
      Forget(device);
      EndLink(device);
    }

    /** A tick's first pass: `Cut` of every linked device the ledger has retired by now. */
    method CutRetired(ledger: seq<Device>)
      requires Valid()
      modifies this
      ensures Valid()
      ensures var cut := Retired(ledger, |ledger|) * old(tasks).Keys;
              tasks == old(tasks) - cut && heard == old(heard) - cut && links == old(links) - cut
      ensures forall id :: (id in tasks <==> id in old(tasks) && forall d | d in ledger && d.id == id :: !d.retired)
    {
      for i := 0 to |ledger|
        invariant Valid()
        invariant var cut := Retired(ledger, i) * old(tasks).Keys;
                  tasks == old(tasks) - cut && heard == old(heard) - cut && links == old(links) - cut
      {
        assert Retired(ledger, i + 1) == Retired(ledger, i) + if ledger[i].retired then {ledger[i].id} else {};
        if ledger[i].retired {
          var aborted := Cut(ledger[i].id);
        }
      }
    }

    /** A tick's last pass: dial every device that is this host's to dial and is not linked, each once. */
    method Dial(me: GrainId, ledger: seq<Device>) returns (dialed: seq<GrainId>)
      modifies this`links
      ensures dialed == ToDial(me, ledger, old(links))
      ensures links == old(links) + set id | id in dialed
    {
      dialed := [];
      assert ledger[..|ledger|] == ledger;
      for i := 0 to |ledger|
        invariant dialed == ToDial(me, ledger[..i], old(links))
        invariant links == old(links) + set id | id in dialed
      {
        var device := ledger[i];
        assert ledger[..i + 1][..i] == ledger[..i];
        if device.id <= me || device.retired || device.nodeId.None? {
          continue;
        }
        var begun := BeginLink(device.id);
        if !begun {
          continue;
        }
        dialed := dialed + [device.id];
      }
    }

    /** The Hellos younger than `dead`, in no particular order, at most one per device. */
    method Reachable(now: int, dead: nat) returns (r: seq<Hello>)
      requires Valid()
      ensures forall h ::
        h in r <==> h.deviceId in heard && heard[h.deviceId].0 == h && Elapsed(heard[h.deviceId].1, now) < dead
      ensures OnePerDevice(r)
    {
      r := [];
      var left := heard.Keys;
      while left != {}
        invariant left <= heard.Keys
        invariant forall h ::
          h in r <==>
              h.deviceId in heard.Keys - left && heard[h.deviceId].0 == h && Elapsed(heard[h.deviceId].1, now) < dead
        invariant OnePerDevice(r)
      {
        ghost var some := Member(left);
        var id :| id in left;
        left := left - {id};
        if Elapsed(heard[id].1, now) < dead {
          r := r + [heard[id].0];
        }
      }
    }
  }

  ghost predicate OnePerDevice(hellos: seq<Hello>) {
    forall i, j | 0 <= i < j < |hellos| :: hellos[i].deviceId != hellos[j].deviceId
  }

  /** The Hellos of `heard` whose devices are active in `ledger`. */
  function Electable(heard: seq<Hello>, ledger: seq<Device>): (r: seq<Hello>)
    ensures forall h :: h in r <==> h in heard && Active(ledger, h.deviceId)
  {
    Filter(heard, (h: Hello) => exists d :: d in ledger && d.id == h.deviceId && !d.retired)
  }
}
