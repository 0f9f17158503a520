/** One label's supervisor: the loop over verbs, exits and restart timers. */
module Supervisor {
  import opened Options

  datatype RestartPolicy = NoRestart | RestartOnFailure | RestartAlways

  /** `body` stands for the fields the loop only compares and passes on. */
  datatype Service = Service(name: nat, policy: RestartPolicy, body: nat)

  datatype Exit = Exit(code: int, signal: int, proven: bool) {
    predicate Failed() { code != 0 || signal != 0 }
  }

  /** What became of one spawned child. */
  datatype Fate = Running | Gone | Unproven

  /** One run of start that got as far as trying. */
  datatype Attempt = Attempt(at: nat, byPolicy: bool, service: Service)

  /** The policy asks for another start after this exit. */
  predicate Wanted(p: RestartPolicy, e: Exit) {
    p.RestartAlways? || (p.RestartOnFailure? && e.Failed())
  }

  ghost predicate Chronological(log: seq<Attempt>) {
    forall i, j :: 0 <= i < j < |log| ==> log[i].at <= log[j].at
  }

  /** Every start the policy made came at least one throttle after the attempt before it, and
      was of a service that has a restart policy. */
  ghost predicate Throttled(log: seq<Attempt>, throttle: nat) {
    forall i :: 0 <= i < |log| && log[i].byPolicy ==>
      log[i].service.policy != NoRestart && (i > 0 ==> log[i].at >= log[i - 1].at + throttle)
  }

  /** Every child but the last is proven gone. */
  ghost predicate OneAtATime(fates: seq<Fate>) {
    forall i :: 0 <= i < |fates| - 1 ==> fates[i] == Gone
  }

  // ----- When a service that must always run is down -----

  /** What an apply meets on its way: whether the program passes, the child can be observed and is
      live, how a child that is stopped exits, and whether the service is persisted and spawned. */
  datatype Ask = Ask(valid: bool, observed: bool, live: bool, exit: Exit, written: bool, spawned: bool)

  datatype Snapshot = Snapshot(desired: Option<Service>, running: Service, child: bool, restart: bool, unsettled: bool)
  {
    /** What every reachable state has. */
    predicate Sane() {
      (child ==> desired == Some(running) && !unsettled && !restart) && (restart ==> desired.Some? && !unsettled)
    }

    /** A service that must always run neither does nor is about to. */
    predicate Down() { desired.Some? && desired.value.policy.RestartAlways? && !unsettled && !child && !restart }

    /** The held child is live and already what is asked for. */
    predicate Holds(service: Service, ask: Ask) { child && ask.observed && ask.live && running == service }

    /** The apply gets past a child that has to go, or has none to stop. */
    predicate Clears(service: Service, ask: Ask) {
      !child || (ask.observed && (Holds(service, ask) || ask.exit.proven))
    }
  }

  predicate Admitted(was: Snapshot, name: nat, service: Service, ask: Ask) {
    !was.unsettled && service.name == name && ask.valid
  }

  predicate Applies(was: Snapshot, name: nat, service: Service, ask: Ask) {
    && Admitted(was, name, service, ask) && was.Clears(service, ask) && ask.written
    && (was.Holds(service, ask) || ask.spawned)
  }

  /** What an apply leaves behind. */
  function AfterApply(was: Snapshot, name: nat, service: Service, ask: Ask): Snapshot {
    if !Admitted(was, name, service, ask) || (was.child && !ask.observed) then was
    else if !was.Clears(service, ask) then was.(child := false, unsettled := true)
    else if !ask.written then was.(child := was.Holds(service, ask))
    else was.(desired := Some(service), restart := false, child := was.Holds(service, ask) || ask.spawned,
              running := if was.Holds(service, ask) || ask.spawned then service else was.running)
  }

  function AfterRemove(was: Snapshot, exit: Exit, forgotten: bool): Snapshot {
    if was.unsettled then was
    else if was.child && !exit.proven then was.(child := false, unsettled := true)
    else if !forgotten then was.(child := false)
    else was.(child := false, desired := None, restart := false)
  }

  /** An apply takes an always-restart service down: it stopped the child and then failed to persist
      the new service, or it persisted the new one and failed to start it. */
  predicate ApplyDrops(was: Snapshot, name: nat, service: Service, ask: Ask) {
    && Admitted(was, name, service, ask)
    && (|| (!ask.written && was.child && ask.observed && !(ask.live && was.running == service) && ask.exit.proven
            && was.running.policy.RestartAlways?)
        || (ask.written && !ask.spawned && service.policy.RestartAlways?
            && (!was.child || (ask.observed && !(ask.live && was.running == service) && ask.exit.proven))))
  }

  /** A remove does when it stopped the child and then failed to forget the service. */
  predicate RemoveDrops(was: Snapshot, exit: Exit, forgotten: bool) {
    !was.unsettled && was.child && exit.proven && !forgotten && was.running.policy.RestartAlways?
  }

  // ----- One event of the loop -----

  datatype Event =
    | AskApply(service: Service, ask: Ask)
    | AskRemove(exit: Exit, forgotten: bool)
    | AskStatus
    /** The child exited by itself. */
    | Exits(exit: Exit)
    /** The restart timer fired, and whether a child comes of it. */
    | Fires(spawned: bool)
    /** The loop is told to end, and how the child it stops then exits. */
    | Ends(exit: Exit)

  /** An event and how long after the one before it. */
  datatype Timed = Timed(delay: nat, event: Event)

  /** The loop's whole state: `due` is when the pending restart is, `tries` counts the starts tried. */
  datatype Moment = Moment(snap: Snapshot, due: Option<nat>, started: nat, now: nat, tries: nat)
  {
    function Later(delay: nat): Moment { this.(now := now + delay) }

    /** An exit needs a child, and a timer one that is due; what cannot happen is passed over. */
    predicate Possible(e: Event) {
      (e.Exits? ==> snap.child) && (e.Fires? ==> due.Some? && now >= due.value && snap.desired.Some?)
    }

    /** When a start may be tried again after the last try. */
    function Again(throttle: nat): nat { if now < started + throttle then started + throttle else now }

    function Released(exit: Exit): Moment {
      if !snap.child then this else this.(snap := snap.(child := false, unsettled := snap.unsettled || !exit.proven))
    }

    function Retried(throttle: nat): Moment {
      if snap.desired.None? || snap.desired.value.policy.NoRestart? then this
      else this.(snap := snap.(restart := true), due := Some(Again(throttle)))
    }

    function Applied(service: Service, ask: Ask, name: nat): Moment {
      var adopted := Admitted(snap, name, service, ask) && snap.Clears(service, ask) && ask.written;
      var tried := adopted && !snap.Holds(service, ask);
      Moment(AfterApply(snap, name, service, ask), if adopted then None else due,
             if tried then now else started, now, tries + if tried then 1 else 0)
    }

    function Removed(exit: Exit, forgotten: bool): Moment {
      var gone := !snap.unsettled && (!snap.child || exit.proven) && forgotten;
      this.(snap := AfterRemove(snap, exit, forgotten), due := if gone then None else due)
    }

    function Exited(exit: Exit, throttle: nat): Moment {
      if exit.proven && snap.desired.Some? && Wanted(snap.desired.value.policy, exit)
      then Released(exit).Retried(throttle) else Released(exit)
    }

    function Unarmed(): Moment { this.(snap := snap.(restart := false), due := None) }

    /** A start of the desired service is tried. */
    function Launched(spawned: bool): Moment
      requires snap.desired.Some?
    {
      var t := this.(started := now, tries := tries + 1);
      if spawned then t.(snap := t.snap.(child := true, running := snap.desired.value)) else t
    }

    /** And if it fails the policy asks for another. */
    function Tried(spawned: bool, throttle: nat): Moment
      requires snap.desired.Some?
    {
      if spawned then Launched(true) else Launched(false).Retried(throttle)
    }

    /** What one event leaves behind. */
    function After(e: Event, name: nat, throttle: nat): Moment {
      if !Possible(e) then this else
        match e
        case AskStatus => this
        case Ends(exit) => if snap.unsettled then this else Released(exit)
        case AskApply(service, ask) => Applied(service, ask, name)
        case AskRemove(exit, forgotten) => Removed(exit, forgotten)
        case Exits(exit) => Exited(exit, throttle)
        case Fires(spawned) => Unarmed().Tried(spawned, throttle)
    }
  }

  /** What a loop over these events comes to: it ends at the first unproven exit, or when it is told. */
  function Served(m: Moment, events: seq<Timed>, name: nat, throttle: nat): Moment
    decreases |events|
  {
    if events == [] || m.snap.unsettled then m
    else
      var t := m.Later(events[0].delay).After(events[0].event, name, throttle);
      if events[0].event.Ends? then t else Served(t, events[1..], name, throttle)
  }

  /** One step of it. */
  lemma ServedOne(m: Moment, events: seq<Timed>, i: nat, t: Moment, name: nat, throttle: nat)
    requires i < |events| && !m.snap.unsettled && t == m.Later(events[i].delay).After(events[i].event, name, throttle)
    ensures Served(m, events[i..], name, throttle) ==
            if events[i].event.Ends? then t else Served(t, events[i + 1..], name, throttle)
    ensures t.snap.unsettled ==> Served(t, events[i + 1..], name, throttle) == t
  {
    assert events[i..][0] == events[i] && events[i..][1..] == events[i + 1..];
  }

  class Supervisor {
    const name: nat
    const throttle: nat
    var now: nat
    var desired: Option<Service>
    var running: Service
    var child: Option<nat>
    var started: nat
    /** When the pending restart is due. */
    var restart: Option<nat>
    var unsettled: bool
    ghost var attempts: seq<Attempt>
    ghost var fates: seq<Fate>
    /** How many attempts there were when an exit went unproven. */
    ghost var sealed: nat
    /** How many verbs took an always-restart service down. */
    ghost var drops: nat

    ghost predicate Processes()
      reads this`fates, this`child, this`unsettled
    {
      && OneAtATime(fates)
      && (child.Some? ==> |fates| > 0 && fates[|fates| - 1] == Running && !unsettled)
      && (unsettled ==> |fates| > 0 && fates[|fates| - 1] == Unproven)
      && (child.None? && !unsettled && |fates| > 0 ==> fates[|fates| - 1] == Gone)
    }

    ghost predicate Starts()
      reads this`attempts, this`started, this`now, this`fates, this`unsettled, this`sealed
    {
      && Throttled(attempts, throttle) && Chronological(attempts)
      && (attempts != [] ==> started == attempts[|attempts| - 1].at && started <= now)
      && (fates != [] ==> attempts != [])
      && (unsettled ==> sealed == |attempts|)
    }

    ghost predicate Pending()
      reads this`child, this`desired, this`running, this`restart, this`unsettled, this`attempts, this`started
    {
      && (child.Some? ==> desired == Some(running))
      && (restart.Some? ==> && child.None? && !unsettled && desired.Some? && desired.value.policy != NoRestart
                            && attempts != [] && restart.value >= started + throttle)
    }

    ghost predicate Valid()
      reads this`fates, this`child, this`unsettled, this`attempts, this`started, this`now, this`sealed, this`desired, this`running, this`restart
    {
      && Processes() && Starts() && Pending()
      && (desired.Some? ==> desired.value.name == name)
    }

    function Now(): Snapshot
      reads this`desired, this`running, this`child, this`restart, this`unsettled
    {
      Snapshot(desired, running, child.Some?, restart.Some?, unsettled)
    }

    ghost function State(): Moment
      reads this`desired, this`running, this`child, this`restart, this`unsettled, this`started, this`now, this`attempts
    {
      Moment(Now(), restart, started, now, |attempts|)
    }

    constructor (name: nat, throttle: nat, now: nat, desired: Option<Service>)
      requires desired.Some? ==> desired.value.name == name
      ensures Valid() && this.name == name && this.desired == desired && this.throttle == throttle
      ensures attempts == [] && child == None && restart == None && !unsettled && drops == 0
    {
      this.name, this.throttle, this.now, this.desired := name, throttle, now, desired;
      running, child, started, restart, unsettled := Service(name, NoRestart, 0), None, 0, None, false;
      attempts, fates, sealed, drops := [], [], 0, 0;
    }

    /** `spawned` says whether a child comes of it. */
    method Start(byPolicy: bool, spawned: bool) returns (ok: bool)
      requires Valid() && child.None? && desired.Some? && restart.None?
      requires byPolicy ==> desired.value.policy != NoRestart && (attempts != [] ==> now >= started + throttle)
      modifies this`started, this`child, this`running, this`attempts, this`fates
      ensures Valid() && (ok <==> child.Some?) && ok == (spawned && !unsettled)
      ensures State() == if unsettled then old(State()) else old(State()).Launched(spawned)
      ensures attempts == if unsettled then old(attempts) else old(attempts) + [Attempt(now, byPolicy, desired.value)]
    {
      if unsettled { return false; }
      var service := desired.value;
      started := now;
      attempts := attempts + [Attempt(now, byPolicy, service)];
      ok := spawned;
      if ok {
        var pid: nat := *;
        child, running := Some(pid), service;
        fates := fates + [Running];
      }
    }

    /** Gives the child up; only a proven reap lets anything start again. */
    method Release(exit: Exit) returns (ok: bool)
      requires Valid() && child.Some?
      modifies this`child, this`unsettled, this`fates, this`sealed
      ensures Valid() && child.None? && ok == exit.proven == !unsettled
    {
      child := None;
      if exit.proven {
        fates := fates[|fates| - 1 := Gone];
      } else {
        unsettled := true;
        fates := fates[|fates| - 1 := Unproven];
        sealed := |attempts|;
      }
      ok := !unsettled;
    }

    method Stop(exit: Exit) returns (ok: bool)
      requires Valid()
      modifies this`child, this`unsettled, this`fates, this`sealed
      ensures Valid() && ok == !unsettled && child.None?
      ensures ok == (!old(unsettled) && (old(child).None? || exit.proven))
    {
      if unsettled { return false; }
      if child.None? { return true; }
      ok := Release(exit);
    }

    method Retry()
      requires Valid() && child.None? && !unsettled && restart.None? && attempts != []
      modifies this`restart
      ensures Valid()
      ensures restart.Some? <==> desired.Some? && desired.value.policy != NoRestart
      ensures restart.Some? ==> restart.value == if now < started + throttle then started + throttle else now
      ensures State() == old(State()).Retried(throttle)
    {
      if desired.None? || desired.value.policy.NoRestart? { return; }
      restart := Some(now + if throttle - (now - started) > 0 then throttle - (now - started) else 0);
    }

    /** The child exited by itself. */
    method Settled(exit: Exit)
      requires Valid() && child.Some?
      modifies this`child, this`unsettled, this`fates, this`sealed, this`restart
      ensures Valid() && !Now().Down() && child.None? && (unsettled <==> !exit.proven)
      ensures restart.Some? <==>
                exit.proven && desired.Some? &&
                (desired.value.policy == RestartAlways
                 || (desired.value.policy == RestartOnFailure && (exit.code != 0 || exit.signal != 0)))
      ensures State() == old(State()).Exited(exit, throttle)
    {
      var ok := Release(exit);
      if !ok || desired.None? { return; }
      if Wanted(desired.value.policy, exit) { Retry(); }
    }

    /** Stops a child that is not live any more or runs something else. */
    method MakeWay(service: Service, ask: Ask) returns (ok: bool)
      requires Valid() && !unsettled
      modifies this`child, this`unsettled, this`fates, this`sealed
      ensures Valid() && ok == old(Now()).Clears(service, ask) && (ok ==> !unsettled)
      ensures ok ==> (child.Some? <==> old(Now()).Holds(service, ask)) && (child.Some? ==> child == old(child))
      ensures !ok ==> if ask.observed then unsettled && child.None? else !unsettled && child == old(child)
    {
      if child.None? { return true; }
      if !ask.observed { return false; }
      if ask.live && running == service { return true; }
      ok := Stop(ask.exit);
    }

    /** On success the service applied is the one that runs and nothing is scheduled beside it.  It
        succeeds, and leaves an always-restart service down, exactly in the cases named above. */
    method Apply(service: Service, ask: Ask) returns (ok: bool)
      requires Valid()
      modifies this`desired, this`restart, this`started, this`child, this`running, this`unsettled
      modifies this`attempts, this`fates, this`sealed, this`drops
      ensures Valid() && ok == Applies(old(Now()), name, service, ask)
      ensures ok ==> desired == Some(service) && child.Some? && running == service && restart.None?
      ensures var due := !old(unsettled) && service.name == name && ask.valid;
              var stops := due && old(child).Some? && ask.observed && !(ask.live && old(running) == service);
              var reached := due && (old(child).None? || ask.observed) && (stops ==> ask.exit.proven);
              && desired == (if reached && ask.written then Some(service) else old(desired))
              && (unsettled <==> old(unsettled) || (stops && !ask.exit.proven))
              && restart == (if reached && ask.written then None else old(restart))
              && |attempts| == |old(attempts)| + if reached && ask.written && (old(child).None? || stops) then 1 else 0
      ensures old(unsettled) ==> attempts == old(attempts) && unsettled
      ensures old(attempts) <= attempts
      ensures Now() == AfterApply(old(Now()), name, service, ask)
      ensures State() == old(State()).Applied(service, ask, name)
      ensures drops == old(drops) + if ApplyDrops(old(Now()), name, service, ask) then 1 else 0
    {
      if ApplyDrops(Now(), name, service, ask) { drops := drops + 1; }
      if unsettled || service.name != name || !ask.valid { return false; }
      ok := Replace(service, ask);
    }

    method Replace(service: Service, ask: Ask) returns (ok: bool)
      requires Valid() && !unsettled && service.name == name
      modifies this`desired, this`restart, this`started, this`child, this`running, this`unsettled
      modifies this`attempts, this`fates, this`sealed
      ensures Valid() && old(attempts) <= attempts && (desired == old(desired) || desired == Some(service))
      ensures ok ==> desired == Some(service) && child.Some? && restart.None?
      ensures ok == (old(Now()).Clears(service, ask) && ask.written && (old(Now()).Holds(service, ask) || ask.spawned))
      ensures ask.valid ==> Now() == AfterApply(old(Now()), name, service, ask)
      ensures restart == if old(Now()).Clears(service, ask) && ask.written then None else old(restart)
      ensures |attempts| == |old(attempts)| +
                if old(Now()).Clears(service, ask) && ask.written && !old(Now()).Holds(service, ask) then 1 else 0
      ensures started ==
                if old(Now()).Clears(service, ask) && ask.written && !old(Now()).Holds(service, ask) then now else old(started)
    {
      var clear := MakeWay(service, ask);
      if !clear || !ask.written { return false; }
      ok := AdoptAndStart(service, ask.spawned);
    }

    method AdoptAndStart(service: Service, spawned: bool) returns (ok: bool)
      requires Valid() && !unsettled && service.name == name && (child.Some? ==> running == service)
      modifies this`desired, this`restart, this`started, this`child, this`running, this`attempts, this`fates
      ensures Valid() && old(attempts) <= attempts && desired == Some(service) && restart.None?
      ensures ok == (old(child).Some? || spawned) == child.Some?
      ensures running == if ok then service else old(running)
      ensures |attempts| == |old(attempts)| + (if old(child).None? then 1 else 0)
      ensures started == if old(child).None? then now else old(started)
    {
      Adopt(service);
      ok := true;
      if child.None? { ok := Start(false, spawned); }
    }

    method Adopt(service: Service)
      requires Valid() && service.name == name && (child.Some? ==> running == service)
      modifies this`desired, this`restart
      ensures Valid() && desired == Some(service) && restart.None?
    {
      desired, restart := Some(service), None;
    }

    method Remove(exit: Exit, forgotten: bool) returns (ok: bool)
      requires Valid()
      modifies this`desired, this`restart, this`child, this`unsettled, this`fates, this`sealed, this`drops
      ensures Valid() && ok == (!old(unsettled) && (old(child).None? || exit.proven) && forgotten)
      ensures if ok then desired.None? && child.None? && restart.None? else desired == old(desired)
      ensures old(unsettled) ==> unsettled
      ensures Now() == AfterRemove(old(Now()), exit, forgotten)
      ensures State() == old(State()).Removed(exit, forgotten)
      ensures drops == old(drops) + if RemoveDrops(old(Now()), exit, forgotten) then 1 else 0
    {
      if RemoveDrops(Now(), exit, forgotten) { drops := drops + 1; }
      ok := Stop(exit);
      if !ok || !forgotten { return false; }
      Forget();
    }

    method Forget()
      requires Valid() && child.None?
      modifies this`desired, this`restart
      ensures Valid() && desired.None? && restart.None?
    {
      desired, restart := None, None;
    }

    /** The restart timer fired, which it does no sooner than it was set for. */
    method Restart(spawned: bool)
      requires Valid() && restart.Some? && now >= restart.value
      modifies this`restart, this`started, this`child, this`running, this`attempts, this`fates
      ensures Valid() && !Now().Down() && (spawned <==> child.Some?)
      ensures attempts == old(attempts) + [Attempt(now, true, desired.value)]
      ensures State() == old(State()).Unarmed().Tried(spawned, throttle)
    {
      Disarm();
      Try(true, spawned);
    }

    method Disarm()
      requires Valid()
      modifies this`restart
      ensures Valid() && State() == old(State()).Unarmed()
    {
      restart := None;
    }

    /** Tries one start and, if it fails, asks for another. */
    method Try(byPolicy: bool, spawned: bool)
      requires Valid() && child.None? && desired.Some? && restart.None? && !unsettled
      requires byPolicy ==> desired.value.policy != NoRestart && (attempts != [] ==> now >= started + throttle)
      modifies this`restart, this`started, this`child, this`running, this`attempts, this`fates
      ensures Valid() && State() == old(State()).Tried(spawned, throttle)
      ensures attempts == old(attempts) + [Attempt(now, byPolicy, desired.value)]
    {
      var ok := Start(byPolicy, spawned);
      if !ok { Retry(); }
    }

    /** Serves one event. */
    method Turn(e: Event)
      requires Valid() && !unsettled
      modifies this
      ensures Valid() && old(attempts) <= attempts && old(drops) <= drops
      ensures State() == old(State()).After(e, name, throttle)
      ensures !e.Ends? && !old(Now()).Down() && drops == old(drops) ==> !Now().Down()
    {
      match e {
        case AskStatus =>
        case Ends(exit) => End(exit);
        case AskApply(service, ask) => HandleApply(service, ask);
        case AskRemove(exit, forgotten) => HandleRemove(exit, forgotten);
        case Exits(exit) =>
          if child.Some? { Settled(exit); }
        case Fires(spawned) =>
          if restart.Some? && now >= restart.value { Restart(spawned); }
      }
    }

    method End(exit: Exit)
      requires Valid() && !unsettled
      modifies this`child, this`unsettled, this`fates, this`sealed
      ensures Valid() && State() == old(State()).Released(exit)
    {
      var _ := Stop(exit);
    }

    method HandleApply(service: Service, ask: Ask)
      requires Valid()
      modifies this`desired, this`restart, this`started, this`child, this`running, this`unsettled
      modifies this`attempts, this`fates, this`sealed, this`drops
      ensures Valid() && old(attempts) <= attempts && old(drops) <= drops && State() == old(State()).Applied(service, ask, name)
      ensures !old(Now()).Down() && drops == old(drops) ==> !Now().Down()
    {
      ghost var was := Now();
      var _ := Apply(service, ask);
      if !was.Down() { DropsExactly(was, name, service, ask); }
    }

    method HandleRemove(exit: Exit, forgotten: bool)
      requires Valid()
      modifies this`desired, this`restart, this`child, this`unsettled, this`fates, this`sealed, this`drops
      ensures Valid() && old(drops) <= drops && State() == old(State()).Removed(exit, forgotten)
      ensures !old(Now()).Down() && drops == old(drops) ==> !Now().Down()
    {
      ghost var was := Now();
      var _ := Remove(exit, forgotten);
      if !was.Down() { RemoveDropsExactly(was, exit, forgotten); }
    }

    method Tick(delay: nat)
      requires Valid()
      modifies this`now
      ensures Valid() && now == old(now) + delay
    {
      now := now + delay;
    }

    method ServeOne(events: seq<Timed>, i: nat)
      requires Valid() && !unsettled && i < |events|
      modifies this
      ensures Valid() && old(attempts) <= attempts && old(drops) <= drops
      ensures Served(old(State()), events[i..], name, throttle) ==
              if events[i].event.Ends? then State() else Served(State(), events[i + 1..], name, throttle)
      ensures unsettled ==> Served(State(), events[i + 1..], name, throttle) == State()
      ensures !events[i].event.Ends? && !old(Now()).Down() && drops == old(drops) ==> !Now().Down()
      ensures events[i].event.Ends? && !unsettled ==> child.None?
    {
      ghost var m := State();
      Tick(events[i].delay);
      Turn(events[i].event);
      ServedOne(m, events, i, State(), name, throttle);
    }

    /** Serves any sequence of events, to exactly what they come to.  It returns the moment an exit goes
        unproven, and an always-restart service is never down unless a verb dropped it or the loop
        was told to end, which is what `ok` means. */
    method Serve(events: seq<Timed>) returns (ok: bool)
      requires Valid() && !unsettled && !Now().Down()
      modifies this
      ensures Valid() && (ok ==> child.None? && !unsettled) && old(attempts) <= attempts && old(drops) <= drops
      ensures State() == Served(old(State()), events, name, throttle)
      ensures ok ==> exists i :: 0 <= i < |events| && events[i].event.Ends?
      ensures !unsettled && (exists i :: 0 <= i < |events| && events[i].event.Ends?) ==> ok
      ensures !ok && drops == old(drops) ==> !Now().Down()
    {
      assert events[0..] == events;
      for i := 0 to |events|
        invariant Valid() && !unsettled && old(attempts) <= attempts && old(drops) <= drops
        invariant drops == old(drops) ==> !Now().Down()
        invariant Served(old(State()), events, name, throttle) == Served(State(), events[i..], name, throttle)
        invariant forall k :: 0 <= k < i ==> !events[k].event.Ends?
      {
        ServeOne(events, i);
        if events[i].event.Ends? { return !unsettled; }
        if unsettled { return false; }
      }
      ok := false;
    }

    /** Resumes the service that was applied last, then serves. */
    method Run(events: seq<Timed>, spawned: bool) returns (ok: bool)
      requires Valid() && attempts == [] && child.None? && restart.None? && !unsettled && drops == 0
      modifies this
      ensures Valid() && (ok ==> child.None? && !unsettled)
      ensures !ok && drops == 0 ==> !Now().Down()
      ensures old(desired).None? ==> State() == Served(old(State()), events, name, throttle)
      ensures old(desired).Some? ==>
                State() == Served(old(State()).Tried(spawned, throttle), events, name, throttle)
    {
      if desired.Some? { Try(false, spawned); }
      ok := Serve(events);
    }
  }

  /** From any state in which the service is not down, what an apply leaves behind is down if and only
      if nothing was written, a held child was stopped with a proven exit and its policy is always,
      or the service was written, no child was left, its start failed and its policy is always. */
  lemma DropsExactly(was: Snapshot, name: nat, service: Service, ask: Ask)
    requires was.Sane() && !was.Down()
    ensures AfterApply(was, name, service, ask).Down() <==> ApplyDrops(was, name, service, ask)
    ensures AfterApply(was, name, service, ask).Sane()
  {
  }

  /** And what a remove leaves behind if and only if it stopped an always-restart child with a proven
      exit and could not forget it. */
  lemma RemoveDropsExactly(was: Snapshot, exit: Exit, forgotten: bool)
    requires was.Sane() && !was.Down()
    ensures AfterRemove(was, exit, forgotten).Down() <==> RemoveDrops(was, exit, forgotten)
    ensures AfterRemove(was, exit, forgotten).Sane()
  {
  }

  /** A child that exits by itself, provably and in a way its policy answers, is started again when the
      timer fires: at once if a throttle has passed since its own start, and otherwise no sooner. */
  lemma ExitThenRestart(m: Moment, exit: Exit, early: nat, wait: nat, name: nat, throttle: nat)
    requires !m.snap.unsettled && m.snap.child && m.snap.desired == Some(m.snap.running) && exit.proven && m.due.None?
    requires var p := m.snap.running.policy;
             p == RestartAlways || (p == RestartOnFailure && (exit.code != 0 || exit.signal != 0))
    ensures var t := Served(m, [Timed(early, Exits(exit)), Timed(wait, Fires(true))], name, throttle);
            var now := m.now + early + wait;
            && t.now == now && t.snap.desired == m.snap.desired
            && (t.snap.child <==> now >= m.started + throttle)
            && if t.snap.child then t.snap.running == m.snap.running && t.started == now && t.tries == m.tries + 1
               else t.tries == m.tries && t.snap.restart
  {
    var es := [Timed(early, Exits(exit)), Timed(wait, Fires(true))];
    var t := m.Later(early).Exited(exit, throttle);
    assert es[0..] == es && es[2..] == [];
    ServedOne(m, es, 0, t, name, throttle);
    ServedOne(t, es, 1, t.Later(wait).After(Fires(true), name, throttle), name, throttle);
  }

  /** With no child and no timer nothing is started, however long and whatever happens, until a service is
      applied. */
  lemma {:induction false} NothingStartsUnasked(m: Moment, events: seq<Timed>, name: nat, throttle: nat)
    requires !m.snap.child && m.due.None? && forall i :: 0 <= i < |events| ==> !events[i].event.AskApply?
    ensures var t := Served(m, events, name, throttle); !t.snap.child && t.due.None? && t.tries == m.tries
    decreases |events|
  {
    if events != [] && !m.snap.unsettled && !events[0].event.Ends? {
      NothingStartsUnasked(m.Later(events[0].delay).After(events[0].event, name, throttle), events[1..], name, throttle);
    }
  }

  /** A run that leaves one down: a service is applied and runs, and applying another stops it and
      then cannot persist. */
  method DownWitness() returns (s: Supervisor)
    ensures fresh(s) && s.Valid() && s.Now().Down() && s.drops == 1 && !s.unsettled
  {
    s := new Supervisor(0, 10, 0, None);
    var fine := Exit(0, 0, true);
    var first, second := Service(0, RestartAlways, 1), Service(0, RestartAlways, 2);
    var ok := s.Apply(first, Ask(true, true, true, fine, true, true));
    ok := s.Apply(second, Ask(true, true, true, fine, false, true));
  }

  /** A start the policy made comes at least a throttle after every earlier attempt. */
  lemma StartsAreApart(s: Supervisor, i: nat, j: nat)
    requires s.Valid() && i < j < |s.attempts| && s.attempts[j].byPolicy
    ensures s.attempts[j].at >= s.attempts[i].at + s.throttle
  {
    assert s.attempts[j - 1].at >= s.attempts[i].at;
  }
}
