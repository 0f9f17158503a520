/** The process table the reap ladder runs against: processes exit, are reaped by whoever waits
    for them, start sessions, and their numbers are handed out again. */
module ProcessTable {
  import opened Options

  /** `serial` is the instance itself, which no caller can see; `start` is the visible stamp. */
  datatype Proc = Proc(serial: nat, start: nat, session: nat, group: nat, zombie: bool)

  /** `tick` is the clock that stamps new processes.  `kept` are the instances whose parent does
      not wait for them for now: they may die but keep their numbers. */
  datatype World = World(table: map<nat, Proc>, nextSerial: nat, tick: nat, kept: set<nat>)

  predicate WorldOk(w: World) {
    forall p :: p in w.table ==> w.table[p].serial < w.nextSerial && w.table[p].start <= w.tick
  }

  /** One process over time: it may become a zombie, may start a session of its own once, and may
      change its group. */
  predicate Ages(p: nat, a: Proc, b: Proc) {
    && a.serial == b.serial && a.start == b.start && (a.zombie ==> b.zombie)
    && (b.session == a.session || (b.session == p && a.session != p))
  }

  /** What may happen to the table between two looks at it. */
  predicate Evolves(w: World, v: World) {
    && w.tick <= v.tick && w.nextSerial <= v.nextSerial && v.kept == w.kept
    && (forall p :: p in v.table ==>
          || (p in w.table && Ages(p, w.table[p], v.table[p]))
          || (w.nextSerial <= v.table[p].serial && w.tick <= v.table[p].start))
    && (forall p :: p in w.table && w.table[p].serial in w.kept ==> p in v.table && Ages(p, w.table[p], v.table[p]))
  }

  lemma EvolvesReflexive(w: World)
    ensures Evolves(w, w)
  {
  }

  lemma EvolvesTransitive(w: World, v: World, u: World)
    requires Evolves(w, v) && Evolves(v, u)
    ensures Evolves(w, u)
  {
  }

  /** The exact instance `n`, which had number `pid`, is running. */
  predicate Live(w: World, pid: nat, n: nat) {
    pid in w.table && w.table[pid].serial == n && !w.table[pid].zombie
  }

  predicate Member(w: World, session: nat, pid: nat, n: nat) {
    Live(w, pid, n) && w.table[pid].session == session
  }

  lemma DeadStaysDead(w: World, v: World, pid: nat, n: nat)
    requires Evolves(w, v) && n < w.nextSerial && !Live(w, pid, n)
    ensures !Live(v, pid, n)
  {
  }

  /** An instance that was in a session and is not any more does not come back to it. */
  lemma LeftStaysGone(u: World, w: World, v: World, session: nat, pid: nat, n: nat)
    requires Evolves(u, w) && Evolves(w, v) && n < u.nextSerial
    requires pid in u.table && u.table[pid].serial == n && u.table[pid].session == session
    requires !Member(w, session, pid, n)
    ensures !Member(v, session, pid, n)
  {
  }

  datatype Signal = Term | Kill

  /** A signal together with the instance it reached and when. */
  datatype Delivery = Delivery(signal: Signal, target: nat, at: nat)

  datatype Probe = NoProc | ProbeError | Info(start: nat, session: nat, group: nat, zombie: bool)

  datatype Sent = Delivered | NoSuchProcess | Denied

  /** What a signal to a process group came back with. */
  datatype GroupSent = GroupSignalled | GroupGone | GroupDenied | GroupError

  datatype Identity = Identity(pid: nat, start: nat, boot: nat)

  /** One round of signals to the groups of verified members: who they were, with the group each was
      found in, and which groups the kernel reported gone. */
  datatype Pass = Pass(signal: Signal, at: nat, members: map<Identity, nat>, gone: set<nat>)

  class Machine {
    const boot: nat
    const self: nat
    /** Holds pin the instance, or are no more than its number. */
    const pidfd: bool
    /** Probes, holds and signals never fail for reasons of their own. */
    const sound: bool
    /** Waits take no longer than asked for, and nobody cancels them. */
    const punctual: bool
    var world: World
    var now: nat
    var canceled: bool
    ghost var deliveries: seq<Delivery>
    /** Every round of signals to process groups so far. */
    ghost var passes: seq<Pass>

    ghost predicate Valid()
      reads this
    {
      WorldOk(world)
    }

    constructor (boot: nat, self: nat, pidfd: bool, sound: bool, punctual: bool, kept: set<nat>)
      ensures Valid() && world == World(map[], 0, 0, kept)
    {
      this.boot, this.self, this.pidfd, this.sound, this.punctual := boot, self, pidfd, sound, punctual;
      world, now, canceled := World(map[], 0, 0, kept), 0, false;
      deliveries, passes := [], [];
    }

    /** Any number of processes do anything. */
    method Interfere()
      requires Valid()
      modifies this`world
      ensures Valid() && Evolves(old(world), world)
    {
      var steps: nat := *;
      while steps > 0
        invariant Valid() && Evolves(old(world), world)
      {
        var p: nat := *;
        var s: nat, g: nat := *, *;
        ghost var before := world;
        if {
          case p in world.table =>
            world := world.(table := world.table[p := world.table[p].(zombie := true)]);
          case p in world.table && world.table[p].serial !in world.kept =>
            world := world.(table := world.table - {p});
          case p in world.table && world.table[p].session != p =>
            world := world.(table := world.table[p := world.table[p].(session := p)]);
          case p in world.table =>
            world := world.(table := world.table[p := world.table[p].(group := g)]);
          case p !in world.table =>
            world := world.(table := world.table[p := Proc(world.nextSerial, world.tick, s, g, false)],
                            nextSerial := world.nextSerial + 1);
          case true =>
            world := world.(tick := world.tick + 1);
        }
        EvolvesTransitive(old(world), before, world);
        steps := steps - 1;
      }
    }

    /** Waits at least `d`; the context may be canceled meanwhile. */
    method After(d: int)
      requires Valid()
      modifies this`world, this`now, this`canceled
      ensures Valid() && Evolves(old(world), world)
      ensures now >= old(now) && now >= old(now) + d
      ensures old(canceled) ==> canceled
      ensures punctual ==> now == old(now) + (if d > 0 then d else 0) && canceled == old(canceled)
    {
      Interfere();
      var late: int :| late >= 0;
      var stop: bool := *;
      now := now + (if d > 0 then d else 0) + if punctual then 0 else late;
      canceled := canceled || (stop && !punctual);
    }

    predicate Expired(deadline: nat)
      reads this
    {
      now >= deadline || canceled
    }

    method ProbePid(pid: nat) returns (r: Probe)
      requires Valid()
      modifies this`world
      ensures Valid() && Evolves(old(world), world)
      ensures sound ==> !r.ProbeError?
      ensures r.NoProc? ==> pid !in world.table
      ensures r.Info? ==> && pid in world.table && world.table[pid].start == r.start
                          && world.table[pid].session == r.session && world.table[pid].zombie == r.zombie
                          && world.table[pid].group == r.group
    {
      Interfere();
      var fails: bool := *;
      if fails && !sound { return ProbeError; }
      if pid !in world.table { return NoProc; }
      r := Info(world.table[pid].start, world.table[pid].session, world.table[pid].group, world.table[pid].zombie);
    }

    /** Every process number in the session at one instant. */
    method GroupMembers(session: nat) returns (failed: bool, members: set<nat>, ghost at: World)
      requires Valid()
      modifies this`world
      ensures Valid() && at == world && Evolves(old(world), world)
      ensures !failed ==> members == set p | p in world.table && world.table[p].session == session
      ensures sound ==> !failed
    {
      Interfere();
      failed := *;
      failed := failed && !sound;
      members := set p | p in world.table && world.table[p].session == session;
      at := world;
    }

    /** Opens a handle on whatever the number names now, or on nothing; where a hold is only the
        number there is nothing to open. */
    method Hold(pid: nat) returns (failed: bool, handle: Option<nat>)
      requires Valid()
      modifies this`world
      ensures Valid() && Evolves(old(world), world)
      ensures pidfd ==> handle == if pid in world.table then Some(world.table[pid].serial) else None
      ensures sound ==> !failed
    {
      Interfere();
      if !pidfd { return false, None; }
      failed := *;
      failed := failed && !sound;
      handle := if pid in world.table then Some(world.table[pid].serial) else None;
    }

    /** A handle names the instance it was opened on for as long as it is held: once that
        instance was reaped the signal reaches nobody.  A number names whatever has it now. */
    method SignalHeld(pid: nat, handle: Option<nat>, sig: Signal) returns (r: Sent)
      requires Valid()
      modifies this`world, this`deliveries
      ensures Valid() && Evolves(old(world), world)
      ensures r.NoSuchProcess? ==> pid !in world.table || (pidfd && handle != Some(world.table[pid].serial))
      ensures r.Delivered? ==> && pid in world.table && (pidfd ==> handle == Some(world.table[pid].serial))
                               && deliveries == old(deliveries) + [Delivery(sig, world.table[pid].serial, now)]
      ensures !r.Delivered? ==> deliveries == old(deliveries)
      ensures sound ==> !r.Denied?
    {
      Interfere();
      if pid !in world.table || (pidfd && handle != Some(world.table[pid].serial)) { return NoSuchProcess; }
      var denied: bool := *;
      if denied && !sound { return Denied; }
      deliveries := deliveries + [Delivery(sig, world.table[pid].serial, now)];
      r := Delivered;
    }

    /** Begins a round of signals to the groups of these members. */
    ghost method BeginPass(sig: Signal, members: map<Identity, nat>)
      modifies this`passes
      ensures passes == old(passes) + [Pass(sig, now, members, {})]
    {
      passes := passes + [Pass(sig, now, members, {})];
    }

    /** kill(2) of a process group, in the current round.  Whom it reaches and what it reports is the
        kernel's choice; a group reported gone is recorded. */
    method SignalGroup(group: nat, sig: Signal) returns (r: GroupSent)
      requires Valid() && |passes| > 0
      modifies this`world, this`deliveries, this`passes
      ensures Valid() && Evolves(old(world), world) && old(deliveries) <= deliveries
      ensures forall i :: |old(deliveries)| <= i < |deliveries| ==> deliveries[i].signal == sig
      ensures var last := old(passes)[|old(passes)| - 1];
              passes == old(passes)[|old(passes)| - 1 :=
                last.(gone := if r.GroupGone? then last.gone + {group} else last.gone)]
      ensures sound ==> r.GroupSignalled? || r.GroupGone?
    {
      Interfere();
      ghost var reached: seq<nat> := *;
      ghost var at := now;
      deliveries := deliveries + seq(|reached|, i requires 0 <= i < |reached| => Delivery(sig, reached[i], at));
      r := *;
      if sound && !r.GroupGone? { r := GroupSignalled; }
      if r.GroupGone? {
        ghost var last := passes[|passes| - 1];
        passes := passes[|passes| - 1 := last.(gone := last.gone + {group})];
      }
    }

    /** Whether the parent's wait for its own child has returned: it has exactly when the instance
        was reaped. */
    method Reaped(pid: nat, child: nat) returns (exited: bool)
      requires Valid() && child < world.nextSerial
      modifies this`world
      ensures Valid() && Evolves(old(world), world)
      ensures exited <==> !(pid in world.table && world.table[pid].serial == child)
    {
      Interfere();
      exited := !(pid in world.table && world.table[pid].serial == child);
    }

    /** Waits for the parent's wait and for something else besides: the other may be taken although
        the instance was reaped. */
    method Waited(pid: nat, child: nat) returns (exited: bool)
      requires Valid() && child < world.nextSerial
      modifies this`world
      ensures Valid() && Evolves(old(world), world)
      ensures exited ==> !(pid in world.table && world.table[pid].serial == child)
    {
      exited := Reaped(pid, child);
      var other: bool := *;
      if other { exited := false; }
    }

    /** kill(2): the signal reaches whatever the number names. */
    method SignalPid(pid: nat, sig: Signal)
      requires Valid()
      modifies this`world, this`deliveries
      ensures Valid() && Evolves(old(world), world)
      ensures deliveries ==
                old(deliveries) + if pid in world.table then [Delivery(sig, world.table[pid].serial, now)] else []
    {
      Interfere();
      if pid in world.table { deliveries := deliveries + [Delivery(sig, world.table[pid].serial, now)]; }
    }
  }
}
