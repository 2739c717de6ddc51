/**
  The operator lease (src/services/leader-election.js).

  One Lease object, any number of pods. The first half is the arithmetic one
  pod does between two awaits; the second half interleaves pods, with the read,
  the decision, the conditional write and the receipt of the answer as separate
  steps. Times are milliseconds, configured durations are seconds.
 */
module LeaderElection {
  import opened Wrappers

  type PodName = string

  datatype Lease = Lease(
    holder: Option<PodName>,
    durationSeconds: Option<nat>,
    acquireTime: Option<int>,
    renewTime: Option<int>,
    transitions: Option<nat>)

  datatype Config = Config(
    identity: PodName,
    leaseDurationSeconds: nat,
    renewDeadlineSeconds: nat,
    retryPeriodSeconds: nat)

  // The fields of one election object. `timer` is whether the interval is armed.
  datatype Pod = Pod(cfg: Config, leading: bool, lastRenewedAt: Option<int>, stopped: bool, timer: bool)

  // The API server's copy. `version` is the resourceVersion, bumped by every write.
  datatype Server = Server(version: nat, lease: Option<Lease>)

  datatype WriteKind = Acquiring | Renewing | Releasing

  // A write that has left the pod: what it read, and what it wants to store.
  datatype Write = Write(kind: WriteKind, seen: Server, lease: Lease)

  // 401/403, or any other failure, which may strike before or after the write lands.
  datatype Fault = NoFault | Refuse | Break(applied: bool)

  datatype Outcome = Done | Conflict | Denied | Failed

  predicate Holds(server: Server, p: PodName) {
    server.lease.Some? && server.lease.value.holder == Some(p)
  }

  // ---- what one pod computes -------------------------------------------

  predicate Expired(cfg: Config, lease: Lease, now: int) {
    || lease.holder.None?
    || lease.renewTime.None?
    || now - lease.renewTime.value > 1000 * lease.durationSeconds.GetOr(cfg.leaseDurationSeconds)
  }

  function Transitions(lease: Option<Lease>): nat {
    if lease.Some? then lease.value.transitions.GetOr(0) else 0
  }

  function Acquired(cfg: Config, existing: Option<Lease>, now: int): Lease {
    Lease(Some(cfg.identity), Some(cfg.leaseDurationSeconds), Some(now), Some(now), Some(Transitions(existing) + 1))
  }

  function Renewed(cfg: Config, lease: Lease, now: int): Lease {
    lease.(renewTime := Some(now), durationSeconds := Some(cfg.leaseDurationSeconds))
  }

  function Released(lease: Lease): Lease {
    lease.(holder := None, renewTime := None)
  }

  // The write a tick issues after its read, or none when a live lease is someone else's.
  function Decide(cfg: Config, seen: Server, now: int): Option<Write> {
    match seen.lease
    case None => Some(Write(Acquiring, seen, Acquired(cfg, None, now)))
    case Some(lease) =>
      if lease.holder == Some(cfg.identity) then Some(Write(Renewing, seen, Renewed(cfg, lease, now)))
      else if Expired(cfg, lease, now) then Some(Write(Acquiring, seen, Acquired(cfg, seen.lease, now)))
      else None
  }

  function LeadWithoutLease(pod: Pod): Pod {
    pod.(timer := false, leading := true)
  }

  function FailRenewal(pod: Pod, now: int): Pod {
    if pod.leading && (pod.lastRenewedAt.None? || now - pod.lastRenewedAt.value > 1000 * pod.cfg.renewDeadlineSeconds)
    then pod.(leading := false)
    else pod
  }

  function AfterRead(pod: Pod, outcome: Outcome): Pod {
    if outcome == Denied then LeadWithoutLease(pod) else pod
  }

  function AfterWrite(pod: Pod, kind: WriteKind, outcome: Outcome, now: int): Pod {
    match outcome
    case Done => pod.(lastRenewedAt := Some(now), leading := true)
    case Conflict => if kind == Renewing then FailRenewal(pod, now) else pod.(leading := false)
    case Denied => if kind == Renewing then FailRenewal(LeadWithoutLease(pod), now) else LeadWithoutLease(pod)
    case Failed => pod
  }

  // ---- what the API server does ----------------------------------------

  // create needs the name to be free, replace needs the version it read.
  predicate Accepts(server: Server, w: Write) {
    if w.seen.lease.None? then server.lease.None? else server.version == w.seen.version
  }

  function Store(server: Server, lease: Lease): Server {
    Server(server.version + 1, Some(lease))
  }

  predicate Lands(server: Server, w: Write, fault: Fault) {
    Accepts(server, w) && (fault.NoFault? || (fault.Break? && fault.applied))
  }

  function Serve(server: Server, w: Write, fault: Fault): (Server, Outcome) {
    (if Lands(server, w, fault) then Store(server, w.lease) else server,
     match fault
     case Refuse => Denied
     case Break(_) => Failed
     case NoFault => if Accepts(server, w) then Done else Conflict)
  }

  function ReadOutcome(fault: Fault): Outcome {
    match fault case NoFault => Done case Refuse => Denied case Break(_) => Failed
  }

  // ---- a whole tick with nothing in between ----------------------------

  function AtomicTick(pod: Pod, server: Server, now: int, readFault: Fault, writeFault: Fault): (Pod, Server) {
    if pod.stopped then (pod, server)
    else if !readFault.NoFault? then (AfterRead(pod, ReadOutcome(readFault)), server)
    else match Decide(pod.cfg, server, now)
      case None => (pod.(leading := false), server)
      case Some(w) =>
        var (server', outcome) := Serve(server, w, writeFault);
        (AfterWrite(pod, w.kind, outcome, now), server')
  }

  // stop() with nothing in between: give the lease back if it is still ours, then
  // stand down, whatever came of it.
  function AtomicStop(pod: Pod, server: Server, readFault: Fault, writeFault: Fault): (Pod, Server) {
    var halted := pod.(stopped := true, timer := false);
    if !pod.leading then (halted, server)
    else if readFault.NoFault? && Holds(server, pod.cfg.identity) then
      (halted.(leading := false), Serve(server, Write(Releasing, server, Released(server.lease.value)), writeFault).0)
    else (halted.(leading := false), server)
  }

  // Another version is stored than the one the write was computed from, or a
  // lease where there was none.
  predicate Stale(w: Write, server: Server) {
    if w.seen.lease.Some? then server.version != w.seen.version else server.lease.Some?
  }

  /** The election object in the source's own form, over a shared API server. */
  class LeaseApi {
    var server: Server

    constructor (initial: Server)
      ensures server == initial
    {
      server := initial;
    }

    method GetLease(fault: Fault) returns (lease: Option<Lease>, outcome: Outcome)
      ensures outcome == ReadOutcome(fault)
      ensures fault.NoFault? ==> lease == server.lease
    {
      lease := server.lease;
      outcome := ReadOutcome(fault);
    }

    // A write is stored whole, as the next version, or not at all. It is refused
    // as a conflict exactly when the lease is no longer the one the caller read,
    // so what a successful write replaced is what it was computed from.
    method PutLease(w: Write, fault: Fault) returns (outcome: Outcome)
      modifies this
      ensures server == old(server) || server == Server(old(server).version + 1, Some(w.lease))
      ensures outcome == Denied <==> fault.Refuse?
      ensures outcome == Failed <==> fault.Break?
      ensures outcome == Conflict <==> fault.NoFault? && Stale(w, old(server))
      ensures outcome == Done <==> fault.NoFault? && !Stale(w, old(server))
      ensures server != old(server) <==> !Stale(w, old(server)) && (fault.NoFault? || fault == Break(true))
      ensures server != old(server) && (w.seen.version == old(server).version ==> w.seen == old(server)) ==>
                old(server).lease == w.seen.lease
    {
      outcome := match fault case NoFault => Done case Refuse => Denied case Break(_) => Failed;
      if fault.Refuse? || fault == Break(false) {
        return;
      }
      var current := if w.seen.lease.None? then server.lease.None? else server.version == w.seen.version;
      if current {
        server := Server(server.version + 1, Some(w.lease));
      } else if fault.NoFault? {
        outcome := Conflict;
      }
    }
  }

  class Election {
    const cfg: Config
    var leading: bool
    var lastRenewedAt: Option<int>
    var stopped: bool
    var timer: bool

    ghost function View(): Pod reads this {
      Pod(cfg, leading, lastRenewedAt, stopped, timer)
    }

    constructor (cfg: Config)
      ensures View() == Pod(cfg, false, None, false, true)
    {
      this.cfg := cfg;
      leading, lastRenewedAt, stopped, timer := false, None, false, true;
    }

    // Whatever becomes of the release, the pod stands down.
    method Stop(api: LeaseApi, readFault: Fault, writeFault: Fault)
      modifies this, api
      ensures (View(), api.server) == AtomicStop(old(View()), old(api.server), readFault, writeFault)
      ensures stopped && !timer && !leading && lastRenewedAt == old(lastRenewedAt)
      ensures api.server ==
              if old(leading) && readFault.NoFault? && (writeFault.NoFault? || writeFault == Break(true))
                 && old(api.server).lease.Some? && old(api.server).lease.value.holder == Some(cfg.identity)
              then Server(old(api.server).version + 1, Some(old(api.server).lease.value.(holder := None, renewTime := None)))
              else old(api.server)
    {
      stopped, timer := true, false;
      if !leading {
        return;
      }
      var seen := api.server;
      var lease, outcome := api.GetLease(readFault);
      if outcome == Done && lease.Some? && lease.value.holder == Some(cfg.identity) {
        var _ := api.PutLease(Write(Releasing, seen, Released(lease.value)), writeFault);
      }
      leading := false;
    }

    method Tick(api: LeaseApi, now: int, readFault: Fault, writeFault: Fault)
      modifies this, api
      ensures (View(), api.server) == AtomicTick(old(View()), old(api.server), now, readFault, writeFault)
    {
      if stopped {
        return;
      }
      var seen := api.server;
      var lease, outcome := api.GetLease(readFault);
      if outcome != Done {
        HandleApiError(outcome);
        return;
      }
      if lease.None? {
        AcquireLease(api, seen, now, writeFault);
      } else if lease.value.holder == Some(cfg.identity) {
        RenewLease(api, seen, now, writeFault);
      } else if Expired(cfg, lease.value, now) {
        AcquireLease(api, seen, now, writeFault);
      } else {
        leading := false;
      }
    }

    method AcquireLease(api: LeaseApi, seen: Server, now: int, fault: Fault)
      modifies this, api
      ensures var w := Write(Acquiring, seen, Acquired(cfg, seen.lease, now));
              var (server', outcome) := Serve(old(api.server), w, fault);
              api.server == server' && View() == AfterWrite(old(View()), Acquiring, outcome, now)
      ensures var current := if seen.lease.None? then old(api.server).lease.None? else old(api.server).version == seen.version;
              var transitions := if seen.lease.Some? && seen.lease.value.transitions.Some? then seen.lease.value.transitions.value else 0;
              && stopped == old(stopped)
              && api.server == (if current && (fault.NoFault? || fault == Break(true))
                                then Server(old(api.server).version + 1,
                                            Some(Lease(Some(cfg.identity), Some(cfg.leaseDurationSeconds), Some(now), Some(now), Some(transitions + 1))))
                                else old(api.server))
              && (timer <==> old(timer) && !fault.Refuse?)
              && (leading <==> match fault case NoFault => current case Refuse => true case Break(_) => old(leading))
              && lastRenewedAt == if fault.NoFault? && current then Some(now) else old(lastRenewedAt)
    {
      var outcome := api.PutLease(Write(Acquiring, seen, Acquired(cfg, seen.lease, now)), fault);
      if outcome == Conflict {
        leading := false;
      } else if outcome == Done {
        lastRenewedAt := Some(now);
        leading := true;
      } else {
        HandleApiError(outcome);
      }
    }

    method RenewLease(api: LeaseApi, seen: Server, now: int, fault: Fault)
      requires seen.lease.Some?
      modifies this, api
      ensures var w := Write(Renewing, seen, Renewed(cfg, seen.lease.value, now));
              var (server', outcome) := Serve(old(api.server), w, fault);
              api.server == server' && View() == AfterWrite(old(View()), Renewing, outcome, now)
      ensures var current := old(api.server).version == seen.version;
              var inTime := old(lastRenewedAt).Some? && now - old(lastRenewedAt).value <= 1000 * cfg.renewDeadlineSeconds;
              && stopped == old(stopped)
              && api.server == (if current && (fault.NoFault? || fault == Break(true))
                                then Server(old(api.server).version + 1,
                                            Some(seen.lease.value.(renewTime := Some(now), durationSeconds := Some(cfg.leaseDurationSeconds))))
                                else old(api.server))
              && (timer <==> old(timer) && !fault.Refuse?)
              && (leading <==> match fault
                               case NoFault => current || (old(leading) && inTime)
                               case Refuse => inTime
                               case Break(_) => old(leading))
              && lastRenewedAt == if fault.NoFault? && current then Some(now) else old(lastRenewedAt)
    {
      var outcome := api.PutLease(Write(Renewing, seen, Renewed(cfg, seen.lease.value, now)), fault);
      if outcome == Done {
        lastRenewedAt := Some(now);
        leading := true;
        return;
      }
      if outcome != Conflict {
        HandleApiError(outcome);
        if outcome == Failed {
          return;  // rethrown, so the deadline below is not reached
        }
      }
      if leading && (lastRenewedAt.None? || now - lastRenewedAt.value > 1000 * cfg.renewDeadlineSeconds) {
        leading := false;
      }
    }

    method HandleApiError(outcome: Outcome)
      modifies this
      ensures View() == AfterRead(old(View()), outcome)
      ensures lastRenewedAt == old(lastRenewedAt) && stopped == old(stopped)
      ensures leading == (old(leading) || outcome == Denied) && timer == (old(timer) && outcome != Denied)
    {
      if outcome == Denied {
        timer := false;
        leading := true;
      }
    }
  }

  // ---- interleaved pods -------------------------------------------------

  datatype Call =
    | Idle
    | Reading
    | HasRead(seen: Server)
    | Writing(w: Write)
    | ReadAnswered(readOutcome: Outcome)
    | WriteAnswered(kind: WriteKind, outcome: Outcome)

  // A process: the election object, its tick in flight and its stop in flight.
  datatype Process = Process(pod: Pod, tick: Call, stop: Call)

  datatype Entry = Entry(kind: WriteKind, author: PodName, before: Option<Lease>, after: Lease)

  datatype World = World(now: int, server: Server, procs: map<PodName, Process>, log: seq<Entry>)

  datatype Action =
    | Advance(ms: nat)
    | BeginTick(p: PodName)
    | BeginStop(p: PodName)
    | ServeRead(p: PodName, stopping: bool, fault: Fault)
    | DecideTick(p: PodName)
    | DecideStop(p: PodName)
    | ServeWrite(p: PodName, stopping: bool, fault: Fault)
    | ReceiveTick(p: PodName)
    | ReceiveStop(p: PodName)
    | Crash(p: PodName)

  function InFlight(proc: Process, stopping: bool): Call {
    if stopping then proc.stop else proc.tick
  }

  function WithCall(proc: Process, stopping: bool, call: Call): Process {
    if stopping then proc.(stop := call) else proc.(tick := call)
  }

  function Fresh(cfg: Config): Process {
    Process(Pod(cfg, false, None, false, true), Idle, Idle)
  }

  // What an action does to the process it belongs to. One that is not enabled does nothing.
  function Act(proc: Process, a: Action, now: int, server: Server): Process
    requires !a.Advance?
  {
    var pod := proc.pod;
    match a
    case BeginTick(_) =>
      if proc.tick.Idle? && pod.timer && !pod.stopped then proc.(tick := Reading) else proc
    case BeginStop(_) =>
      if !proc.stop.Idle? then proc
      else proc.(pod := pod.(stopped := true, timer := false), stop := if pod.leading then Reading else Idle)
    case ServeRead(_, stopping, fault) =>
      if !InFlight(proc, stopping).Reading? then proc
      else WithCall(proc, stopping, if fault.NoFault? then HasRead(server) else ReadAnswered(ReadOutcome(fault)))
    case DecideTick(_) =>
      if !proc.tick.HasRead? then proc
      else (match Decide(pod.cfg, proc.tick.seen, now)
            case None => Process(pod.(leading := false), Idle, proc.stop)
            case Some(write) => proc.(tick := Writing(write)))
    case DecideStop(_) =>
      if !proc.stop.HasRead? then proc
      else if Holds(proc.stop.seen, pod.cfg.identity)
      then proc.(stop := Writing(Write(Releasing, proc.stop.seen, Released(proc.stop.seen.lease.value))))
      else proc.(pod := pod.(leading := false), stop := Idle)
    case ServeWrite(_, stopping, fault) =>
      var call := InFlight(proc, stopping);
      if !call.Writing? then proc
      else WithCall(proc, stopping, WriteAnswered(call.w.kind, Serve(server, call.w, fault).1))
    case ReceiveTick(_) =>
      if proc.tick.ReadAnswered?
      then Process(AfterRead(pod, proc.tick.readOutcome), Idle, proc.stop)
      else if proc.tick.WriteAnswered?
      then Process(AfterWrite(pod, proc.tick.kind, proc.tick.outcome, now), Idle, proc.stop)
      else proc
    case ReceiveStop(_) =>
      if proc.stop.ReadAnswered? || proc.stop.WriteAnswered?
      then proc.(pod := pod.(leading := false), stop := Idle)
      else proc
    case Crash(_) => Fresh(pod.cfg)
  }

  predicate Landing(w: World, a: Action) {
    && a.ServeWrite? && a.p in w.procs && InFlight(w.procs[a.p], a.stopping).Writing?
    && Lands(w.server, InFlight(w.procs[a.p], a.stopping).w, a.fault)
  }

  function Step(w: World, a: Action): World {
    if a.Advance? then w.(now := w.now + a.ms)
    else if a.p !in w.procs then w
    else
      var w' := w.(procs := w.procs[a.p := Act(w.procs[a.p], a, w.now, w.server)]);
      if !Landing(w, a) then w'
      else
        var write := InFlight(w.procs[a.p], a.stopping).w;
        w'.(server := Store(w.server, write.lease),
            log := w.log + [Entry(write.kind, a.p, w.server.lease, write.lease)])
  }

  function Run(w: World, actions: seq<Action>): World
    decreases |actions|
  {
    if actions == [] then w else Run(Step(w, actions[0]), actions[1..])
  }

  // Every process freshly started under its own name; any lease may already be there.
  ghost predicate Initial(w: World) {
    && w.log == []
    && forall p :: p in w.procs ==> w.procs[p] == Fresh(w.procs[p].pod.cfg) && w.procs[p].pod.cfg.identity == p
  }

  // How the log explains itself: each kind of entry, and what it did to the lease.
  ghost predicate LegalEntry(e: Entry) {
    match e.kind
    case Acquiring =>
      && e.after.holder == Some(e.author) && e.after.acquireTime.Some? && e.after.renewTime == e.after.acquireTime
      && e.after.durationSeconds.Some?
      && e.after.transitions == Some(Transitions(e.before) + 1)
      && (e.before.Some? && e.before.value.holder.Some? && e.before.value.renewTime.Some? && e.before.value.durationSeconds.Some? ==>
            && e.before.value.holder != Some(e.author)
            && e.after.acquireTime.value - e.before.value.renewTime.value > 1000 * e.before.value.durationSeconds.value)
    case Renewing =>
      && e.before.Some? && e.before.value.holder == Some(e.author)
      && e.after == e.before.value.(renewTime := e.after.renewTime, durationSeconds := e.after.durationSeconds)
      && e.after.renewTime.Some? && e.after.durationSeconds.Some?
    case Releasing =>
      && e.before.Some? && e.before.value.holder == Some(e.author)
      && e.after == Released(e.before.value)
  }

  function Acquisitions(log: seq<Entry>): nat {
    if log == [] then 0
    else Acquisitions(log[..|log| - 1]) + if log[|log| - 1].kind == Acquiring then 1 else 0
  }

  // The lease as pod p last wrote it, unless p's last write gave it back.
  function LastHeld(log: seq<Entry>, p: PodName): Option<Lease> {
    if log == [] then None
    else
      var e := log[|log| - 1];
      if e.author == p then if e.kind == Releasing then None else Some(e.after)
      else LastHeld(log[..|log| - 1], p)
  }

  ghost predicate Overdue(w: World, p: PodName) {
    && LastHeld(w.log, p).Some?
    && var lease := LastHeld(w.log, p).value;
       && lease.renewTime.Some? && lease.durationSeconds.Some?
       && w.now - lease.renewTime.value > 1000 * lease.durationSeconds.value
  }

  // A snapshot is some past server; at the current version it is the current one.
  ghost predicate Seen(w: World, s: Server) {
    && s.version <= w.server.version
    && (s.version == w.server.version ==> s == w.server)
    && (s.lease.Some? ==> w.server.lease.Some?)
  }

  ghost predicate SoundWrite(w: World, p: PodName, write: Write, stopping: bool) {
    && Seen(w, write.seen)
    && (write.kind == Releasing <==> stopping)
    && LegalEntry(Entry(write.kind, p, write.seen.lease, write.lease))
    && (write.lease.renewTime.Some? ==> write.lease.renewTime.value <= w.now)
    && (write.seen.lease.None? ==> write.kind == Acquiring)
  }

  ghost predicate SoundProcess(w: World, p: PodName, proc: Process) {
    && proc.pod.cfg.identity == p
    && (proc.pod.stopped ==> !proc.pod.timer)
    && (!proc.stop.Idle? ==> proc.pod.stopped)
    && (proc.tick.HasRead? ==> Seen(w, proc.tick.seen))
    && (proc.stop.HasRead? ==> Seen(w, proc.stop.seen))
    && (proc.tick.Writing? ==> SoundWrite(w, p, proc.tick.w, false))
    && (proc.stop.Writing? ==> SoundWrite(w, p, proc.stop.w, true))
    && (proc.pod.leading && proc.pod.timer ==> LastHeld(w.log, p).Some?)
    && (proc.tick.WriteAnswered? && proc.tick.outcome == Done && proc.pod.timer ==> LastHeld(w.log, p).Some?)
  }

  ghost predicate SoundEntries(log: seq<Entry>, initial: Option<Lease>, lease: Option<Lease>) {
    && (forall i :: 0 <= i < |log| ==> LegalEntry(log[i]))
    && (forall i :: 0 < i < |log| ==> log[i].before == Some(log[i - 1].after))
    && (log != [] ==> log[0].before == initial)
    && lease == (if log == [] then initial else Some(log[|log| - 1].after))
    && Transitions(lease) == Transitions(initial) + Acquisitions(log)
  }

  ghost predicate SoundLog(w: World, initial: Option<Lease>) {
    SoundEntries(w.log, initial, w.server.lease)
  }

  ghost predicate SoundHolder(w: World, p: PodName)
    requires LastHeld(w.log, p).Some?
  {
    && LastHeld(w.log, p).value.durationSeconds.Some?
    && LastHeld(w.log, p).value.renewTime.Some?
    && (if Holds(w.server, p) then w.server.lease == LastHeld(w.log, p) else Overdue(w, p))
  }

  ghost predicate SoundHolders(w: World) {
    forall p :: LastHeld(w.log, p).Some? ==> SoundHolder(w, p)
  }

  ghost predicate Inv(w: World, initial: Option<Lease>) {
    && SoundLog(w, initial)
    && SoundHolders(w)
    && forall p :: p in w.procs ==> SoundProcess(w, p, w.procs[p])
  }

  lemma LastHeldAppend(log: seq<Entry>, e: Entry, p: PodName)
    ensures LastHeld(log + [e], p) ==
            if e.author == p then if e.kind == Releasing then None else Some(e.after) else LastHeld(log, p)
    ensures Acquisitions(log + [e]) == Acquisitions(log) + if e.kind == Acquiring then 1 else 0
  {
    assert (log + [e])[..|log + [e]| - 1] == log;
  }

  // A tick's write is sound by construction: renewal for the holder, takeover past expiry.
  lemma DecisionIsSound(w: World, p: PodName, proc: Process)
    requires SoundProcess(w, p, proc) && proc.tick.HasRead?
    ensures var decision := Decide(proc.pod.cfg, proc.tick.seen, w.now);
            decision.Some? ==> SoundWrite(w, p, decision.value, false)
  {
  }

  lemma LandedEntry(w: World, initial: Option<Lease>, a: Action)
    requires Inv(w, initial) && Landing(w, a)
    ensures var e := Step(w, a).log[|w.log|];
            && LegalEntry(e) && e.author == a.p && e.before == w.server.lease
            && (e.after.renewTime.Some? ==> e.after.renewTime.value <= w.now)
            && (e.kind == Releasing <==> a.stopping)
  {
    var proc := w.procs[a.p];
    assert SoundProcess(w, a.p, proc);
    assert SoundWrite(w, a.p, InFlight(proc, a.stopping).w, a.stopping);
  }

  lemma LandingKeepsLog(w: World, initial: Option<Lease>, a: Action)
    requires Inv(w, initial) && Landing(w, a)
    ensures SoundLog(Step(w, a), initial)
  {
    LandedEntry(w, initial, a);
    var w' := Step(w, a);
    var e := w'.log[|w.log|];
    assert w'.log == w.log + [e] && w'.server.lease == Some(e.after);
    EntriesAppend(w.log, initial, w.server.lease, e);
  }

  lemma EntriesAppend(log: seq<Entry>, initial: Option<Lease>, lease: Option<Lease>, e: Entry)
    requires SoundEntries(log, initial, lease) && LegalEntry(e) && e.before == lease
    ensures SoundEntries(log + [e], initial, Some(e.after))
  {
    LastHeldAppend(log, e, e.author);
    var longer := log + [e];
    forall i | 0 <= i < |longer| ensures LegalEntry(longer[i]) {
      assert i < |log| ==> LegalEntry(log[i]);
    }
  }

  lemma LandingKeepsHolders(w: World, initial: Option<Lease>, a: Action)
    requires Inv(w, initial) && Landing(w, a)
    ensures SoundHolders(Step(w, a))
  {
    forall q | LastHeld(Step(w, a).log, q).Some? ensures SoundHolder(Step(w, a), q) {
      LandingKeepsHolder(w, initial, a, q);
    }
  }

  lemma LandingKeepsHolder(w: World, initial: Option<Lease>, a: Action, q: PodName)
    requires Inv(w, initial) && Landing(w, a) && LastHeld(Step(w, a).log, q).Some?
    ensures SoundHolder(Step(w, a), q)
  {
    LandedEntry(w, initial, a);
    LastHeldAppend(w.log, Step(w, a).log[|w.log|], q);
    assert q != a.p ==> SoundHolder(w, q);
  }

  lemma LandingKeepsProcess(w: World, initial: Option<Lease>, a: Action, q: PodName)
    requires Inv(w, initial) && Landing(w, a) && q in w.procs
    ensures SoundProcess(Step(w, a), q, Step(w, a).procs[q])
  {
    LandedEntry(w, initial, a);
    LastHeldAppend(w.log, Step(w, a).log[|w.log|], q);
    assert SoundProcess(w, q, w.procs[q]);
  }

  // Time passing and other pods' private steps keep a process sound.
  lemma FrameProcess(w: World, w': World, q: PodName, proc: Process)
    requires SoundProcess(w, q, proc)
    requires w'.server == w.server && w'.log == w.log && w'.now >= w.now
    ensures SoundProcess(w', q, proc)
  {
  }

  lemma PrivateStepKeepsProcess(w: World, a: Action, proc: Process)
    requires !a.Advance? && SoundProcess(w, a.p, proc)
    requires !(a.ServeWrite? && InFlight(proc, a.stopping).Writing? && Lands(w.server, InFlight(proc, a.stopping).w, a.fault))
    ensures SoundProcess(w, a.p, Act(proc, a, w.now, w.server))
  {
    if a.DecideTick? && proc.tick.HasRead? {
      DecisionIsSound(w, a.p, proc);
    }
  }

  lemma StepKeepsInv(w: World, initial: Option<Lease>, a: Action)
    requires Inv(w, initial)
    ensures Inv(Step(w, a), initial)
  {
    var w' := Step(w, a);
    if Landing(w, a) {
      LandingKeepsLog(w, initial, a);
      LandingKeepsHolders(w, initial, a);
      forall q | q in w'.procs ensures SoundProcess(w', q, w'.procs[q]) {
        LandingKeepsProcess(w, initial, a, q);
      }
    } else {
      forall q | q in w'.procs ensures SoundProcess(w', q, w'.procs[q]) {
        if a.Advance? || q != a.p {
          FrameProcess(w, w', q, w.procs[q]);
        } else {
          PrivateStepKeepsProcess(w, a, w.procs[q]);
          FrameProcess(w, w', q, w'.procs[q]);
        }
      }
    }
  }

  lemma {:induction false} RunKeepsInv(w: World, initial: Option<Lease>, actions: seq<Action>)
    requires Inv(w, initial)
    ensures Inv(Run(w, actions), initial)
    decreases |actions|
  {
    if actions != [] {
      StepKeepsInv(w, initial, actions[0]);
      RunKeepsInv(Step(w, actions[0]), initial, actions[1..]);
    }
  }

  /** Every run, whatever the interleaving, the faults and the pods' settings:
      the lease only moves by legal entries, so a direct handover waits out the
      recorded duration, and leaseTransitions counts the acquisitions. */
  lemma HandoverSafety(w0: World, actions: seq<Action>, i: nat)
    requires Initial(w0)
    requires i < |Run(w0, actions).log|
    ensures var w := Run(w0, actions);
            && Transitions(w.server.lease) == Transitions(w0.server.lease) + Acquisitions(w.log)
            && (i > 0 ==> w.log[i].before == Some(w.log[i - 1].after))
            && (var e := w.log[i];
                e.before.Some? && e.before.value.holder.Some? && e.after.holder.Some?
                && e.after.holder != e.before.value.holder
                && e.before.value.renewTime.Some? && e.before.value.durationSeconds.Some?
                ==> && e.kind == Acquiring && e.after.holder == Some(e.author) && e.after.acquireTime.Some?
                    && e.after.acquireTime.value - e.before.value.renewTime.value
                       > 1000 * e.before.value.durationSeconds.value)
  {
    RunKeepsInv(w0, w0.server.lease, actions);
    assert LegalEntry(Run(w0, actions).log[i]);
  }

  /** A pod that still leads although the lease no longer names it has either
      stopped, been told to lead without a lease, or let more than the recorded
      duration pass since it last wrote the lease. */
  lemma StrayLeaderIsOverdue(w0: World, actions: seq<Action>, p: PodName)
    requires Initial(w0)
    requires var w := Run(w0, actions); p in w.procs && w.procs[p].pod.leading && !Holds(w.server, p)
    ensures var w := Run(w0, actions); !w.procs[p].pod.timer || Overdue(w, p)
  {
    RunKeepsInv(w0, w0.server.lease, actions);
    var w := Run(w0, actions);
    assert SoundProcess(w, p, w.procs[p]);
  }

  // Nobody holds the lease, or its holder is past the duration it recorded.
  ghost predicate Vacant(server: Server, durationSeconds: nat, now: int) {
    server.lease.Some? && server.lease.value.holder.Some? && server.lease.value.renewTime.Some? ==>
      now > server.lease.value.renewTime.value + 1000 * server.lease.value.durationSeconds.GetOr(durationSeconds)
  }

  // Pod p has taken the lease since the log was `since` long.
  ghost predicate TookSince(w: World, p: PodName, since: nat) {
    exists i :: since <= i < |w.log| && w.log[i].author == p && w.log[i].kind == Acquiring
  }

  // A tick begun without the lease can only lead on by taking it.
  ghost predicate NoOldHold(w: World, p: PodName) {
    && !Holds(w.server, p)
    && (p in w.procs ==>
          var tick := w.procs[p].tick;
          && (tick.HasRead? ==> !Holds(tick.seen, p))
          && (tick.Writing? ==> tick.w.kind == Acquiring)
          && (tick.WriteAnswered? ==> tick.kind == Acquiring && tick.outcome != Done))
  }

  // The action ends p's tick with a decision, a success or a conflict.
  predicate Settles(w: World, a: Action, p: PodName) {
    && p in w.procs
    && (|| (a == DecideTick(p) && w.procs[p].tick.HasRead? && Decide(w.procs[p].pod.cfg, w.procs[p].tick.seen, w.now).None?)
        || (a == ReceiveTick(p) && w.procs[p].tick.WriteAnswered? && w.procs[p].tick.outcome in {Done, Conflict}))
  }

  lemma LandingKeepsNoOldHold(w: World, initial: Option<Lease>, a: Action, p: PodName)
    requires Inv(w, initial) && p in w.procs && Landing(w, a) && NoOldHold(w, p)
    ensures NoOldHold(Step(w, a), p) || TookSince(Step(w, a), p, |w.log|)
  {
    var w' := Step(w, a);
    LandedEntry(w, initial, a);
    var e := w'.log[|w.log|];
    if a.p == p {
      assert e.kind == Acquiring;
      assert TookSince(w', p, |w.log|);
    } else {
      assert !Holds(w'.server, p);
    }
  }

  lemma PrivateStepKeepsNoOldHold(w: World, a: Action, p: PodName)
    requires p in w.procs && w.procs[p].pod.cfg.identity == p && !Landing(w, a) && NoOldHold(w, p)
    ensures NoOldHold(Step(w, a), p)
  {
  }

  lemma StepKeepsNoOldHold(w: World, initial: Option<Lease>, a: Action, p: PodName, since: nat)
    requires Inv(w, initial) && since <= |w.log| && p in w.procs
    requires NoOldHold(w, p) || TookSince(w, p, since)
    ensures NoOldHold(Step(w, a), p) || TookSince(Step(w, a), p, since)
  {
    if TookSince(w, p, since) {
      LogGrows(w, a, p, since);
    } else if Landing(w, a) {
      LandingKeepsNoOldHold(w, initial, a, p);
    } else {
      assert SoundProcess(w, p, w.procs[p]);
      PrivateStepKeepsNoOldHold(w, a, p);
    }
  }

  lemma LogGrows(w: World, a: Action, p: PodName, since: nat)
    requires TookSince(w, p, since)
    ensures TookSince(Step(w, a), p, since)
  {
    var i :| since <= i < |w.log| && w.log[i].author == p && w.log[i].kind == Acquiring;
    assert Step(w, a).log[i] == w.log[i];
  }

  lemma {:induction false} RunKeepsNoOldHold(w: World, initial: Option<Lease>, actions: seq<Action>, p: PodName, since: nat)
    requires Inv(w, initial) && since <= |w.log| && p in w.procs
    requires NoOldHold(w, p) || TookSince(w, p, since)
    ensures var w' := Run(w, actions); p in w'.procs && |w'.log| >= |w.log| && (NoOldHold(w', p) || TookSince(w', p, since))
    decreases |actions|
  {
    if actions != [] {
      StepKeepsInv(w, initial, actions[0]);
      StepKeepsNoOldHold(w, initial, actions[0], p, since);
      RunKeepsNoOldHold(Step(w, actions[0]), initial, actions[1..], p, since);
    }
  }

  /** ...and its next tick settles it, however it interleaves with other pods
      and with stops: once that tick ends in a decision, a success or a conflict,
      the pod has stood down, or it took the lease again on the way, and then the
      lease names it, or again it has stopped, was refused or is overdue. */
  lemma NextTickSettles(w0: World, before: seq<Action>, during: seq<Action>, a: Action, p: PodName)
    requires Initial(w0)
    requires var w := Run(w0, before); p in w.procs && w.procs[p].tick.Idle? && !Holds(w.server, p)
    requires Settles(Run(Run(w0, before), during), a, p)
    ensures var w := Run(w0, before);
            var w' := Step(Run(w, during), a);
            && p in w'.procs && w'.procs[p].tick.Idle?
            && (w'.procs[p].pod.leading ==>
                  && TookSince(w', p, |w.log|)
                  && (Holds(w'.server, p) || !w'.procs[p].pod.timer || Overdue(w', p)))
  {
    var initial := w0.server.lease;
    var w := Run(w0, before);
    RunKeepsInv(w0, initial, before);
    RunKeepsInv(w, initial, during);
    RunKeepsNoOldHold(w, initial, during, p, |w.log|);
    StepKeepsInv(Run(w, during), initial, a);
    var w' := Step(Run(w, during), a);
    assert w'.log == Run(w, during).log;
    assert SoundProcess(w', p, w'.procs[p]);
  }

  /** A tick that the API server answers, with nothing in between,
      ends with the pod holding the lease exactly when the pod held it before or
      the lease was vacant; then it leads on a lease renewed now, counted and
      dated as acquired only if it changed hands. Otherwise the lease is as it
      was and the pod stands down. */
  lemma AnsweredTick(pod: Pod, server: Server, now: int)
    requires !pod.stopped
    ensures var (pod', server') := AtomicTick(pod, server, now, NoFault, NoFault);
            var held := Holds(server, pod.cfg.identity);
            && (pod'.leading <==> Holds(server', pod.cfg.identity))
            && (pod'.leading <==> held || Vacant(server, pod.cfg.leaseDurationSeconds, now))
            && (!pod'.leading ==> server' == server)
            && (pod'.leading ==>
                  var lease := server'.lease.value;
                  && pod'.lastRenewedAt == lease.renewTime == Some(now)
                  && lease.durationSeconds == Some(pod.cfg.leaseDurationSeconds)
                  && Transitions(server'.lease) == Transitions(server.lease) + (if held then 0 else 1)
                  && lease.acquireTime == if held then server.lease.value.acquireTime else Some(now))
  {
  }

  /** A pod that stops while it holds the lease leaves it vacant if its release
      arrives, so that the next tick of any other pod takes over without waiting;
      otherwise that pod has to wait for the lease to expire. */
  lemma CleanStopHandsOver(pod: Pod, heir: Pod, server: Server, now: int, readFault: Fault, writeFault: Fault)
    requires pod.leading && Holds(server, pod.cfg.identity)
    requires !heir.stopped && heir.cfg.identity != pod.cfg.identity
    ensures var (pod', server') := AtomicStop(pod, server, readFault, writeFault);
            var (heir', server'') := AtomicTick(heir, server', now, NoFault, NoFault);
            && !pod'.leading
            && (heir'.leading <==> Holds(server'', heir.cfg.identity))
            && (heir'.leading <==>
                (readFault.NoFault? && (writeFault.NoFault? || writeFault == Break(true)))
                || Vacant(server, heir.cfg.leaseDurationSeconds, now))
  {
    AnsweredTick(heir, AtomicStop(pod, server, readFault, writeFault).1, now);
  }

  // The tick of the class is the interleaved one when nothing comes in between.
  function UninterruptedTick(p: PodName, readFault: Fault, writeFault: Fault): seq<Action> {
    [BeginTick(p), ServeRead(p, false, readFault), DecideTick(p), ServeWrite(p, false, writeFault), ReceiveTick(p)]
  }

  lemma RunCons(w: World, a: Action, rest: seq<Action>)
    ensures Run(w, [a] + rest) == Run(Step(w, a), rest)
  {
    assert ([a] + rest)[1..] == rest;
  }

  /** What begins a tick and a stop: the timer of a pod that was not stopped, if no
      tick is in flight; and anybody, once, which ends the timer at once. A crash
      forgets everything but the pod's settings; and time passes for all. */
  lemma BeginsExactly(w: World, p: PodName, ms: nat)
    requires p in w.procs
    ensures Step(w, Advance(ms)) == w.(now := w.now + ms)
    ensures var ticking, stopping, crashed := Step(w, BeginTick(p)), Step(w, BeginStop(p)), Step(w, Crash(p));
            var proc := w.procs[p];
            && ticking == w.(procs := w.procs[p := if proc.tick == Idle && proc.pod.timer && !proc.pod.stopped then proc.(tick := Reading) else proc])
            && stopping == w.(procs := w.procs[p :=
                 if proc.stop != Idle then proc
                 else Process(proc.pod.(stopped := true, timer := false), proc.tick, if proc.pod.leading then Reading else Idle)])
            && crashed == w.(procs := w.procs[p := Process(Pod(proc.pod.cfg, false, None, false, true), Idle, Idle)])
  {
  }

  /** What an answer does to the pod that waited for it, in any world. A renewal
      that met a conflict leaves it leading exactly if it led and its own last
      renewal is no older than the deadline; one that was refused clears the timer
      and leaves it leading within the deadline; a failure leaves it as it was. */
  lemma AnswerDecides(w: World, p: PodName)
    requires p in w.procs && (w.procs[p].tick.WriteAnswered? || w.procs[p].tick.ReadAnswered?)
    ensures var w' := Step(w, ReceiveTick(p));
            var pod, tick := w.procs[p].pod, w.procs[p].tick;
            var inTime := pod.lastRenewedAt.Some? && w.now - pod.lastRenewedAt.value <= 1000 * pod.cfg.renewDeadlineSeconds;
            var outcome := if tick.WriteAnswered? then tick.outcome else tick.readOutcome;
            var written := tick.WriteAnswered? && outcome == Done;
            var leads := match outcome
                         case Done => written || pod.leading
                         case Conflict => (tick.ReadAnswered? || tick.kind == Renewing) && pod.leading && (tick.ReadAnswered? || inTime)
                         case Denied => tick.ReadAnswered? || tick.kind != Renewing || inTime
                         case Failed => pod.leading;
            && w'.now == w.now && w'.server == w.server && w'.log == w.log
            && w'.procs == w.procs[p := Process(
                 pod.(leading := leads,
                      timer := pod.timer && outcome != Denied,
                      lastRenewedAt := if written then Some(w.now) else pod.lastRenewedAt),
                 Idle, w.procs[p].stop)]
  {
  }

  /** A renewal that met a conflict, in any world: the pod leads on exactly if it
      led and renewed no longer ago than the deadline, and nothing else changes. */
  lemma ConflictedRenewal(w: World, p: PodName)
    requires p in w.procs && w.procs[p].tick == WriteAnswered(Renewing, Conflict)
    ensures var w' := Step(w, ReceiveTick(p));
            var pod := w.procs[p].pod;
            && p in w'.procs && w'.server == w.server && w'.log == w.log
            && (w'.procs[p].pod.leading <==>
                pod.leading && exists t: int :: pod.lastRenewedAt == Some(t) && w.now - t <= 1000 * pod.cfg.renewDeadlineSeconds)
            && w'.procs[p].pod.timer == pod.timer && w'.procs[p].pod.lastRenewedAt == pod.lastRenewedAt
            && w'.procs[p].pod.stopped == pod.stopped
  {
    AnswerDecides(w, p);
  }

  /** A tick of a stopped pod does nothing. One whose call fails leaves the pod as
      it was, though its write may have been stored. */
  lemma FailedTick(pod: Pod, server: Server, now: int, readFault: Fault, writeFault: Fault)
    requires pod.stopped || readFault.Break? || (readFault.NoFault? && writeFault.Break?)
    ensures var (pod', server') := AtomicTick(pod, server, now, readFault, writeFault);
            var live := server.lease.Some? && !Holds(server, pod.cfg.identity) && !Vacant(server, pod.cfg.leaseDurationSeconds, now);
            && (pod.stopped || readFault.Break? ==> pod' == pod && server' == server)
            && (!pod.stopped && readFault.NoFault? ==>
                  && pod' == (if live then pod.(leading := false) else pod)
                  && (server' != server <==> !live && writeFault == Break(true)))
  {
  }

  /** The stop of the class is the interleaved one when nothing comes in between. */
  lemma StopIsARun(w: World, p: PodName, readFault: Fault, writeFault: Fault)
    requires p in w.procs && w.procs[p].stop.Idle?
    ensures var w' := Run(w, [BeginStop(p)] + ([ServeRead(p, true, readFault)] + ([DecideStop(p)]
                             + ([ServeWrite(p, true, writeFault)] + ([ReceiveStop(p)] + [])))));
            && p in w'.procs && w'.procs[p].stop.Idle? && w'.procs[p].tick == w.procs[p].tick
            && (w'.procs[p].pod, w'.server) == AtomicStop(w.procs[p].pod, w.server, readFault, writeFault)
  {
    var read, write := ServeRead(p, true, readFault), ServeWrite(p, true, writeFault);
    var w1 := Step(w, BeginStop(p));
    var w2 := Step(w1, read);
    var w3 := Step(w2, DecideStop(p));
    var w4 := Step(w3, write);
    RunCons(w, BeginStop(p), [read] + ([DecideStop(p)] + ([write] + ([ReceiveStop(p)] + []))));
    RunCons(w1, read, [DecideStop(p)] + ([write] + ([ReceiveStop(p)] + [])));
    RunCons(w2, DecideStop(p), [write] + ([ReceiveStop(p)] + []));
    RunCons(w3, write, [ReceiveStop(p)] + []);
    RunCons(w4, ReceiveStop(p), []);
  }

  /** The tick of the class is the interleaved one when nothing comes in between. */
  lemma TickIsARun(w: World, p: PodName, readFault: Fault, writeFault: Fault)
    requires p in w.procs && w.procs[p].tick.Idle? && w.procs[p].pod.timer && !w.procs[p].pod.stopped
    ensures var w' := Run(w, UninterruptedTick(p, readFault, writeFault));
            && p in w'.procs && w'.procs[p].tick.Idle?
            && (w'.procs[p].pod, w'.server) == AtomicTick(w.procs[p].pod, w.server, w.now, readFault, writeFault)
            && w'.procs == w.procs[p := w'.procs[p]]
  {
    var begin, read, decide, write, receive :=
      BeginTick(p), ServeRead(p, false, readFault), DecideTick(p), ServeWrite(p, false, writeFault), ReceiveTick(p);
    var w1 := Step(w, begin);
    var w2 := Step(w1, read);
    var w3 := Step(w2, decide);
    var w4 := Step(w3, write);
    var w5 := Step(w4, receive);
    assert Run(w, UninterruptedTick(p, readFault, writeFault)) == w5 by {
      assert UninterruptedTick(p, readFault, writeFault) == [begin] + ([read] + ([decide] + ([write] + ([receive] + []))));
      RunCons(w, begin, [read] + ([decide] + ([write] + ([receive] + []))));
      RunCons(w1, read, [decide] + ([write] + ([receive] + [])));
      RunCons(w2, decide, [write] + ([receive] + []));
      RunCons(w3, write, [receive] + []);
      RunCons(w4, receive, []);
    }
    assert w5.procs == w.procs[p := w5.procs[p]];
  }

  // ---- pods that tick on time -------------------------------------------

  datatype Timed = Timed(pod: Pod, lastTick: int)

  datatype Cluster = Cluster(now: int, server: Server, pods: map<PodName, Timed>)

  datatype Event = Wait(ms: nat) | Tick(p: PodName) | Stop(p: PodName)

  // The clock may only move as far as every leading pod still has a tick due.
  function Next(c: Cluster, e: Event, retrySeconds: nat): Cluster {
    match e
    case Wait(ms) =>
      if forall p :: p in c.pods && c.pods[p].pod.leading ==> c.now + ms - c.pods[p].lastTick <= 1000 * retrySeconds
      then c.(now := c.now + ms) else c
    case Tick(p) =>
      if p !in c.pods then c
      else
        var (pod', server') := AtomicTick(c.pods[p].pod, c.server, c.now, NoFault, NoFault);
        c.(server := server', pods := c.pods[p := Timed(pod', c.now)])
    case Stop(p) =>
      if p !in c.pods then c
      else
        var (pod', server') := AtomicStop(c.pods[p].pod, c.server, NoFault, NoFault);
        c.(server := server', pods := c.pods[p := c.pods[p].(pod := pod')])
  }

  function Play(c: Cluster, events: seq<Event>, retrySeconds: nat): Cluster
    decreases |events|
  {
    if events == [] then c else Play(Next(c, events[0], retrySeconds), events[1..], retrySeconds)
  }

  ghost predicate AtMostOneLeads(c: Cluster) {
    forall p, q :: p in c.pods && q in c.pods && c.pods[p].pod.leading && c.pods[q].pod.leading ==> p == q
  }

  ghost predicate Quiet(c: Cluster, durationSeconds: nat) {
    forall p :: p in c.pods ==>
      && c.pods[p].pod.cfg.identity == p && c.pods[p].pod.cfg.leaseDurationSeconds == durationSeconds
      && !c.pods[p].pod.leading && !c.pods[p].pod.stopped
  }

  ghost predicate OnTime(c: Cluster, durationSeconds: nat, retrySeconds: nat) {
    forall p :: p in c.pods ==>
      && c.pods[p].pod.cfg.identity == p && c.pods[p].pod.cfg.leaseDurationSeconds == durationSeconds
      && (c.pods[p].pod.leading ==>
            && !c.pods[p].pod.stopped && Holds(c.server, p)
            && c.server.lease.value.renewTime == Some(c.pods[p].lastTick)
            && c.server.lease.value.durationSeconds == Some(durationSeconds)
            && c.now - c.pods[p].lastTick <= 1000 * retrySeconds)
  }

  lemma NextKeepsOnTime(c: Cluster, e: Event, durationSeconds: nat, retrySeconds: nat)
    requires OnTime(c, durationSeconds, retrySeconds) && retrySeconds <= durationSeconds
    ensures OnTime(Next(c, e, retrySeconds), durationSeconds, retrySeconds)
  {
    if e.Tick? && e.p in c.pods {
      TickKeepsOnTime(c, e.p, durationSeconds, retrySeconds);
    }
  }

  lemma TickKeepsOnTime(c: Cluster, p: PodName, durationSeconds: nat, retrySeconds: nat)
    requires OnTime(c, durationSeconds, retrySeconds) && retrySeconds <= durationSeconds && p in c.pods
    ensures OnTime(Next(c, Tick(p), retrySeconds), durationSeconds, retrySeconds)
  {
    if !c.pods[p].pod.stopped {
      AnsweredTick(c.pods[p].pod, c.server, c.now);
    }
  }

  lemma {:induction false} PlayKeepsOnTime(c: Cluster, events: seq<Event>, durationSeconds: nat, retrySeconds: nat)
    requires OnTime(c, durationSeconds, retrySeconds) && retrySeconds <= durationSeconds
    ensures OnTime(Play(c, events, retrySeconds), durationSeconds, retrySeconds)
    decreases |events|
  {
    if events != [] {
      NextKeepsOnTime(c, events[0], durationSeconds, retrySeconds);
      PlayKeepsOnTime(Next(c, events[0], retrySeconds), events[1..], durationSeconds, retrySeconds);
    }
  }

  lemma PlayCons(c: Cluster, e: Event, rest: seq<Event>, retrySeconds: nat)
    ensures Play(c, [e] + rest, retrySeconds) == Play(Next(c, e, retrySeconds), rest, retrySeconds)
  {
    assert ([e] + rest)[1..] == rest;
  }

  // Long enough for whatever lease there is to run out.
  function UntilVacant(server: Server, durationSeconds: nat, now: int): nat {
    if server.lease.None? || server.lease.value.renewTime.None? then 0
    else
      var ends := server.lease.value.renewTime.value + 1000 * server.lease.value.durationSeconds.GetOr(durationSeconds);
      if now > ends then 0 else ends - now + 1
  }

  function LateTick(c: Cluster, p: PodName, q: PodName, durationSeconds: nat, retrySeconds: nat): seq<Event> {
    [Wait(UntilVacant(c.server, durationSeconds, c.now))] + ([Tick(p)] + ([Wait(1000 * retrySeconds)] + ([Tick(q)] + [])))
  }

  // A pod that ticks later than the lease lasts can be joined by a second leader.
  lemma LateTickMakesTwoLeaders(c: Cluster, p: PodName, q: PodName, durationSeconds: nat, retrySeconds: nat)
    requires Quiet(c, durationSeconds)
    requires p in c.pods && q in c.pods && p != q && retrySeconds > durationSeconds
    ensures !AtMostOneLeads(Play(c, LateTick(c, p, q, durationSeconds, retrySeconds), retrySeconds))
  {
    var expire, late := Wait(UntilVacant(c.server, durationSeconds, c.now)), Wait(1000 * retrySeconds);
    var c1 := Next(c, expire, retrySeconds);
    var c2 := Next(c1, Tick(p), retrySeconds);
    var c3 := Next(c2, late, retrySeconds);
    var c4 := Next(c3, Tick(q), retrySeconds);
    PlayCons(c3, Tick(q), [], retrySeconds);
    PlayCons(c2, late, [Tick(q)] + [], retrySeconds);
    PlayCons(c1, Tick(p), [late] + ([Tick(q)] + []), retrySeconds);
    PlayCons(c, expire, [Tick(p)] + ([late] + ([Tick(q)] + [])), retrySeconds);
    AnsweredTick(c1.pods[p].pod, c1.server, c1.now);
    assert Vacant(c1.server, durationSeconds, c1.now);
    assert c3.now == c2.now + 1000 * retrySeconds;
    AnsweredTick(c3.pods[q].pod, c3.server, c3.now);
    assert c4.pods[p].pod.leading && c4.pods[q].pod.leading;
  }

  /** With atomic ticks and answered calls, and from whatever lease is there when
      the pods start, one leader in every reachable state exactly when no pod may
      wait longer than the lease lasts before ticking. */
  lemma SingleLeader(c: Cluster, p: PodName, q: PodName, durationSeconds: nat, retrySeconds: nat)
    requires Quiet(c, durationSeconds)
    requires p in c.pods && q in c.pods && p != q
    ensures (forall events: seq<Event> :: AtMostOneLeads(Play(c, events, retrySeconds))) <==> retrySeconds <= durationSeconds
  {
    if retrySeconds <= durationSeconds {
      forall events: seq<Event> ensures AtMostOneLeads(Play(c, events, retrySeconds)) {
        PlayKeepsOnTime(c, events, durationSeconds, retrySeconds);
      }
    } else {
      LateTickMakesTwoLeaders(c, p, q, durationSeconds, retrySeconds);
    }
  }

  // ---- missing permissions ----------------------------------------------

  /** Being refused is meant to keep the operators running. It does, whichever
      call was refused, except on a renewal by a pod that has no renewal of its
      own within the deadline: that pod stands down with its timer cleared. */
  lemma RefusedPodLeads(pod: Pod, server: Server, now: int, readFault: Fault)
    requires !pod.stopped && (readFault.NoFault? || readFault.Refuse?)
    requires readFault.Refuse? || Decide(pod.cfg, server, now).Some?
    ensures var (pod', server') := AtomicTick(pod, server, now, readFault, Refuse);
            && server' == server && !pod'.timer
            && (pod'.leading <==>
                !(readFault.NoFault? && Holds(server, pod.cfg.identity)
                  && (pod.lastRenewedAt.None? || now - pod.lastRenewedAt.value > 1000 * pod.cfg.renewDeadlineSeconds)))
  {
  }
}
