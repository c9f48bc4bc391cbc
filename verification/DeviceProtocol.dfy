/** All interleavings of hiring, firing, sending, contract watchers and the shutdown of one
    device with any number of actors. */
module DeviceProtocol {
  import opened Runs
  import opened Contracts

  type ActorID = string

  /** The writer holding contractMutex between the forceSend and the contract change; a fire is
      called directly or by the watcher of a cancelled contract. */
  datatype Lock = Free | Hiring | Firing(watcher: Option<nat>)

  datatype Member = Member(actor: ActorState, lock: Lock)

  datatype Phase =
    | Serving
    | Visiting(remaining: set<ActorID>, disconnected: Option<ActorID>)
    | Down

  datatype Device = Device(members: map<ActorID, Member>, phase: Phase)

  datatype Action =
    | BeginHire(id: ActorID)
    | CommitHire(id: ActorID)
    | BeginFire(id: ActorID, watcher: Option<nat>)
    | CommitFire(id: ActorID)
    | CancelContract(id: ActorID, contract: nat)
    | SendMessage(id: ActorID, content: int)
    | BeginShutdown
    | Disconnect(id: ActorID)
    | CancelVisited(id: ActorID)
    | EndShutdown

  /** The sections of one actor; the shutdown steps are those of the device. */
  function MemberStep(m: Member, a: Action): (r: Option<Member>) {
    match a
    case BeginHire(_) =>
      if m.lock != Free then None
      else if !CanHire(m.actor) then Some(m)
      else Some(Member(ForceSend(m.actor, YouAreIn), Hiring))
    case CommitHire(_) =>
      if m.lock != Hiring then None else Some(Member(SignContract(m.actor), Free))
    case BeginFire(_, w) =>
      if m.lock != Free || (w.Some? && w.value !in DueWatchers(m.actor)) then None
      else if m.actor.contract.None? then Some(m.(actor := WatcherDone(m.actor, w)))
      else Some(Member(ForceSend(m.actor, Fired), Firing(w)))
    case CommitFire(_) =>
      if !m.lock.Firing? || m.actor.contract.None? then None
      else Some(Member(WatcherDone(EndContract(m.actor), m.lock.watcher), Free))
    case CancelContract(_, c) =>
      if m.actor.nextContract <= c then None
      else Some(m.(actor := m.actor.(cancelled := m.actor.cancelled + {c})))
    case SendMessage(_, content) =>
      if m.lock != Free then None else Some(m.(actor := Send(m.actor, content)))
    case _ => None
  }

  function WatcherDone(s: ActorState, watcher: Option<nat>): ActorState {
    if watcher.None? then s else s.(watchers := s.watchers - {watcher.value})
  }

  function Step(d: Device, a: Action): Option<Device> {
    match a
    case BeginShutdown =>
      if d.phase != Serving then None else Some(d.(phase := Visiting(d.members.Keys, None)))
    case Disconnect(id) =>
      if !d.phase.Visiting? || d.phase.disconnected.Some? || id !in d.phase.remaining || id !in d.members then None
      else
        var m := d.members[id];
        Some(Device(d.members[id := m.(actor := m.actor.(isConnected := false))], d.phase.(disconnected := Some(id))))
    case CancelVisited(id) =>
      if !d.phase.Visiting? || d.phase.disconnected != Some(id) || id !in d.members then None
      else if d.members[id].lock != Free then None
      else
        var m := d.members[id];
        var cancelled := m.actor.cancelled + if m.actor.contract.Some? then {m.actor.contract.value} else {};
        Some(Device(d.members[id := m.(actor := m.actor.(cancelled := cancelled))],
                    Visiting(d.phase.remaining - {id}, None)))
    case EndShutdown =>
      if d.phase != Visiting({}, None) then None else Some(d.(phase := Down))
    case _ =>
      if a.id !in d.members then None
      else
        match MemberStep(d.members[a.id], a)
        case None => None
        case Some(m) => Some(d.(members := d.members[a.id := m]))
  }

  /** A booted device: every actor is connected and not hired. */
  predicate Booted(d: Device) {
    d.phase == Serving && forall id <- d.members :: d.members[id] == Member(NEW_ACTOR, Free)
  }

  predicate Visited(d: Device, id: ActorID) {
    d.phase.Down? || (d.phase.Visiting? && id !in d.phase.remaining)
  }

  // ---------- what every run keeps ----------

  /** A valid contract has a watcher that has not fired, every other watcher is that of a cancelled
      contract, and a holder of the lock is hiring an actor without or firing an actor with a
      contract. */
  predicate Guarded(m: Member) {
    && (forall c <- m.actor.cancelled :: c < m.actor.nextContract)
    && (forall c <- m.actor.watchers :: c < m.actor.nextContract)
    && (m.actor.contract.Some? ==> m.actor.contract.value in m.actor.watchers)
    && (forall c <- m.actor.watchers :: c in m.actor.cancelled || m.actor.contract == Some(c))
    && (m.lock.Hiring? ==> m.actor.contract.None?)
    && (m.lock.Firing? ==> m.actor.contract.Some?)
    && (m.lock.Firing? && m.lock.watcher.Some? ==> m.lock.watcher.value in DueWatchers(m.actor))
  }

  /** Disconnected, nobody between a successful notification and the contract, and no contract
      that is not cancelled. */
  predicate Dismissed(m: Member) {
    && !m.actor.isConnected
    && !m.lock.Hiring?
    && (m.actor.contract.Some? ==> m.actor.contract.value in m.actor.cancelled)
  }

  predicate MemberInv(m: Member, visited: bool) {
    Guarded(m) && LogFits(m) && (visited ==> Dismissed(m))
  }

  predicate Inv(d: Device) {
    && (d.phase.Visiting? ==> d.phase.remaining <= d.members.Keys)
    && (d.phase.Visiting? && d.phase.disconnected.Some? ==>
          var id := d.phase.disconnected.value; id in d.phase.remaining && !d.members[id].actor.isConnected)
    && forall id <- d.members :: MemberInv(d.members[id], Visited(d, id))
  }

  /** The sections of one actor keep its part of the invariant; a dismissed actor stays dismissed
      and no section signs another contract for it. */
  lemma {:induction false} MemberStepKeeps(m: Member, a: Action)
    requires Guarded(m) && LogFits(m) && MemberStep(m, a).Some?
    ensures var n := MemberStep(m, a).value;
      && Guarded(n) && LogFits(n)
      && n.actor.isConnected == m.actor.isConnected
      && (Dismissed(m) ==>
            && Dismissed(n)
            && n.actor.nextContract == m.actor.nextContract
            && (m.actor.contract.None? ==> n.actor.contract.None?))
  {
    MemberStepKeepsLog(m, a);
  }

  lemma MemberStepKeepsLog(m: Member, a: Action)
    requires LogFits(m) && MemberStep(m, a).Some?
    requires m.lock.Hiring? ==> m.actor.contract.None?
    requires m.lock.Firing? ==> m.actor.contract.Some?
    ensures LogFits(MemberStep(m, a).value)
  {
    var n := MemberStep(m, a).value;
    if n.actor.log != m.actor.log {
      assert n.actor.log[..|n.actor.log| - 1] == m.actor.log;
    }
  }

  lemma {:induction false} StepKeepsMember(d: Device, a: Action, id: ActorID)
    requires Inv(d) && Step(d, a).Some? && id in d.members
    ensures var e := Step(d, a).value;
      && id in e.members
      && MemberInv(e.members[id], Visited(e, id))
      && (Visited(d, id) ==>
            && Visited(e, id)
            && e.members[id].actor.nextContract == d.members[id].actor.nextContract
            && (d.members[id].actor.contract.None? ==> e.members[id].actor.contract.None?))
  {
    assert MemberInv(d.members[id], Visited(d, id));
    if MemberAction(a) {
      if a.id == id {
        MemberStepKeeps(d.members[id], a);
      }
    }
  }

  lemma StepKeepsInv(d: Device, a: Action)
    requires Inv(d) && Step(d, a).Some?
    ensures Inv(Step(d, a).value)
  {
    var e := Step(d, a).value;
    forall id | id in e.members
      ensures MemberInv(e.members[id], Visited(e, id))
    {
      StepKeepsMember(d, a, id);
    }
  }

  predicate MemberAction(a: Action) {
    !(a.BeginShutdown? || a.Disconnect? || a.CancelVisited? || a.EndShutdown?)
  }

  lemma {:induction false} RunsKeepInv(d: Device, actions: seq<Action>)
    requires Inv(d)
    ensures Run(Step, d, actions).Some? ==> Inv(Run(Step, d, actions).value)
  {
    forall t, a | Inv(t) && Step(t, a).Some? { StepKeepsInv(t, a); }
    RunKeeps(Step, Inv, d, actions);
  }

  /** Whatever hires race with the shutdown: a visited actor is disconnected, and its contract, if
      it has one, is cancelled and still has a watcher that will end it. */
  lemma {:induction false} ShutdownLeavesNoValidContract(d0: Device, actions: seq<Action>, id: ActorID)
    requires Booted(d0)
    ensures var r := Run(Step, d0, actions);
      r.Some? && id in r.value.members && Visited(r.value, id) ==>
        var m := r.value.members[id];
        && !m.actor.isConnected
        && (m.actor.contract.Some? ==> m.actor.contract.value in DueWatchers(m.actor))
  {
    RunsKeepInv(d0, actions);
  }

  predicate Released(d: Device, id: ActorID, contracts: nat, retired: bool) {
    && id in d.members && Inv(d) && Visited(d, id)
    && d.members[id].actor.nextContract == contracts
    && (retired ==> d.members[id].actor.contract.None?)
  }

  /** No Hire of a visited actor succeeds any more, and once the watchers of its cancelled
      contracts have run it has no contract, now and after every continuation. */
  lemma {:induction false} NoHireSurvivesShutdown(d0: Device, actions: seq<Action>, more: seq<Action>, id: ActorID)
    requires Booted(d0)
    requires var r := Run(Step, d0, actions);
      r.Some? && id in r.value.members && Visited(r.value, id)
    ensures var d := Run(Step, d0, actions).value; var later := Run(Step, d, more);
      later.Some? ==>
        && id in later.value.members
        && later.value.members[id].actor.nextContract == d.members[id].actor.nextContract
        && (DueWatchers(d.members[id].actor) == {} ==> later.value.members[id].actor.contract.None?)
  {
    var d := Run(Step, d0, actions).value;
    RunsKeepInv(d0, actions);
    assert MemberInv(d.members[id], true);
    var contracts := d.members[id].actor.nextContract;
    var retired := DueWatchers(d.members[id].actor) == {};
    if d.members[id].actor.contract.Some? {
      assert d.members[id].actor.contract.value in DueWatchers(d.members[id].actor);
    }
    var released := e => Released(e, id, contracts, retired);
    forall t, a | released(t) && Step(t, a).Some?
      ensures released(Step(t, a).value)
    {
      StepKeepsInv(t, a);
      StepKeepsMember(t, a, id);
    }
    RunKeeps(Step, released, d, more);
  }

  // ---------- the outgoing log ----------

  datatype Scan = Outside | Inside | Broken

  function ScanLog(log: seq<Outgoing>): Scan {
    if log == [] then Outside
    else
      match (ScanLog(log[..|log| - 1]), log[|log| - 1])
      case (Outside, YouAreIn) => Inside
      case (Inside, Payload(_)) => Inside
      case (Inside, Fired) => Outside
      case _ => Broken
  }

  /** While the actor is connected, a session of its log is open exactly between the notification
      of being hired and that of being fired. */
  predicate LogFits(m: Member) {
    && !ScanLog(m.actor.log).Broken?
    && (m.actor.isConnected ==>
          (ScanLog(m.actor.log).Inside? <==> m.lock.Hiring? || (m.lock.Free? && m.actor.contract.Some?)))
  }

  /** One engagement: YouAreIn, the payloads, Fired. */
  function Session(payloads: seq<int>): seq<Outgoing> {
    [YouAreIn] + seq(|payloads|, i requires 0 <= i < |payloads| => Payload(payloads[i])) + [Fired]
  }

  function Sessions(all: seq<seq<int>>): seq<Outgoing> {
    if all == [] then [] else Sessions(all[..|all| - 1]) + Session(all[|all| - 1])
  }

  /** The accepted logs are prefixes of (YouAreIn payload* Fired)*. */
  lemma {:induction false} ScannedLogHasSessions(log: seq<Outgoing>) returns (all: seq<seq<int>>)
    requires !ScanLog(log).Broken?
    ensures log <= Sessions(all)
    ensures ScanLog(log).Outside? ==> log == Sessions(all)
    ensures ScanLog(log).Inside? ==> all != [] && log == Sessions(all)[..|Sessions(all)| - 1]
  {
    if log == [] {
      all := [];
    } else {
      var before := log[..|log| - 1];
      var done := ScannedLogHasSessions(before);
      match log[|log| - 1]
      case YouAreIn =>
        all := done + [[]];
        assert all[..|all| - 1] == done;
        assert Session([]) == [YouAreIn, Fired];
      case Fired =>
        all := done;
      case Payload(content) =>
        all := MorePayload(done, content);
    }
  }

  /** One more payload in the last session, before its end. */
  lemma MorePayload(all: seq<seq<int>>, content: int) returns (more: seq<seq<int>>)
    requires all != []
    ensures more != [] && |Sessions(all)| > 0
    ensures Sessions(more) == Sessions(all)[..|Sessions(all)| - 1] + [Payload(content), Fired]
  {
    var last := |all| - 1;
    var open := all[last];
    more := all[..last] + [open + [content]];
    assert more[..last] == all[..last];
    assert Session(open + [content]) == Session(open)[..|open| + 1] + [Payload(content), Fired];
  }

  /** In every interleaving the outgoing log of an actor is a prefix of (YouAreIn payload* Fired)*;
      every session is complete when a connected actor rests without a contract. */
  lemma {:induction false} OutgoingLogIsPrefixOfSessions(d0: Device, actions: seq<Action>, id: ActorID)
    requires Booted(d0)
    ensures var r := Run(Step, d0, actions);
      r.Some? && id in r.value.members ==>
        var m := r.value.members[id];
        exists all ::
          && m.actor.log <= Sessions(all)
          && (m.actor.isConnected && m.lock.Free? && m.actor.contract.None? ==> m.actor.log == Sessions(all))
  {
    RunsKeepInv(d0, actions);
    var r := Run(Step, d0, actions);
    if r.Some? && id in r.value.members {
      var m := r.value.members[id];
      assert LogFits(m);
      var all := ScannedLogHasSessions(m.actor.log);
    }
  }

  /** What an action has an actor told: that it is hired when it is free and connected, what is sent
      while it is hired and connected, and that it is fired when it is both. */
  function Said(d: Device, a: Action, id: ActorID): seq<Outgoing>
    requires id in d.members
  {
    var s := d.members[id].actor;
    match a
    case BeginHire(i) => if i == id && s.contract.None? && s.isConnected then [YouAreIn] else []
    case SendMessage(i, content) => if i == id && s.contract.Some? && s.isConnected then [Payload(content)] else []
    case BeginFire(i, _) => if i == id && s.contract.Some? && s.isConnected then [Fired] else []
    case _ => []
  }

  function SaidIn(d: Device, actions: seq<Action>, id: ActorID): seq<Outgoing> {
    if actions == [] then []
    else
      var before := actions[..|actions| - 1];
      var r := Run(Step, d, before);
      SaidIn(d, before, id) +
      if r.Some? && id in r.value.members then Said(r.value, actions[|actions| - 1], id) else []
  }

  function Payloads(log: seq<Outgoing>): seq<int> {
    if log == [] then []
    else
      var last := log[|log| - 1];
      Payloads(log[..|log| - 1]) + if last.Payload? then [last.content] else []
  }

  /** The contents of the messages that met the actor hired and connected. */
  function Accepted(d: Device, actions: seq<Action>, id: ActorID): seq<int> {
    if actions == [] then []
    else
      var before, a := actions[..|actions| - 1], actions[|actions| - 1];
      var r := Run(Step, d, before);
      Accepted(d, before, id) +
      if r.Some? && a.SendMessage? && a.id == id && IsHiredAndConnected(r.value, id) then [a.content] else []
  }

  predicate IsHiredAndConnected(d: Device, id: ActorID) {
    id in d.members && d.members[id].actor.contract.Some? && d.members[id].actor.isConnected
  }

  /** In every interleaving the log holds exactly what the actions have the actor told, in order. */
  lemma {:induction false} LogIsWhatWasSaid(d: Device, actions: seq<Action>, id: ActorID)
    requires id in d.members && Run(Step, d, actions).Some?
    ensures var e := Run(Step, d, actions).value;
      id in e.members && e.members[id].actor.log == d.members[id].actor.log + SaidIn(d, actions, id)
  {
    if actions != [] {
      var before := actions[..|actions| - 1];
      LogIsWhatWasSaid(d, before, id);
      StepSays(Run(Step, d, before).value, actions[|actions| - 1], id);
    }
  }

  lemma StepSays(d: Device, a: Action, id: ActorID)
    requires id in d.members && Step(d, a).Some?
    ensures var e := Step(d, a).value;
      id in e.members && e.members[id].actor.log == d.members[id].actor.log + Said(d, a, id)
  {
  }

  lemma PayloadsSaid(d: Device, a: Action, id: ActorID)
    requires id in d.members
    ensures Payloads(Said(d, a, id)) ==
      if a.SendMessage? && a.id == id && IsHiredAndConnected(d, id) then [a.content] else []
  {
    var said := Said(d, a, id);
    assert said == [] || said == [said[0]];
    if said != [] {
      assert said[..0] == [];
    }
  }

  lemma {:induction false} PayloadsOfMore(log: seq<Outgoing>, more: seq<Outgoing>)
    ensures Payloads(log + more) == Payloads(log) + Payloads(more)
  {
    if more == [] {
      assert log + more == log;
    } else {
      var init := more[..|more| - 1];
      assert (log + more)[..|log + more| - 1] == log + init;
      PayloadsOfMore(log, init);
    }
  }

  /** In every interleaving the payloads that an actor gets are, in order, the contents of the messages
      that met it hired and connected. */
  lemma {:induction false} PayloadsAreAccepted(d: Device, actions: seq<Action>, id: ActorID)
    requires id in d.members && Run(Step, d, actions).Some?
    ensures var e := Run(Step, d, actions).value;
      id in e.members
      && Payloads(e.members[id].actor.log) == Payloads(d.members[id].actor.log) + Accepted(d, actions, id)
  {
    if actions != [] {
      var before, a := actions[..|actions| - 1], actions[|actions| - 1];
      PayloadsAreAccepted(d, before, id);
      var s := Run(Step, d, before).value;
      StepSays(s, a, id);
      PayloadsSaid(s, a, id);
      PayloadsOfMore(s.members[id].actor.log, Said(s, a, id));
    }
  }

  predicate Silent(d: Device, id: ActorID, log: seq<Outgoing>) {
    id in d.members && !d.members[id].actor.isConnected && d.members[id].actor.log == log
  }

  /** Nothing is sent to a disconnected actor, and it is never connected again. */
  lemma {:induction false} NothingSentAfterDisconnect(d: Device, more: seq<Action>, id: ActorID)
    requires id in d.members && !d.members[id].actor.isConnected
    ensures var later := Run(Step, d, more);
      later.Some? ==> Silent(later.value, id, d.members[id].actor.log)
  {
    var log := d.members[id].actor.log;
    RunKeeps(Step, e => Silent(e, id, log), d, more);
  }

  // ---------- a watcher outlives its contract ----------

  function With(d: Device, id: ActorID, s: ActorState): Device {
    d.(members := d.members[id := Member(s, Free)])
  }

  predicate Idle(d: Device, id: ActorID) {
    id in d.members && d.members[id].lock == Free
  }

  /** Undisturbed, the two sections of Hire are the method Hire. */
  lemma UndisturbedHire(d: Device, id: ActorID)
    requires Idle(d, id) && CanHire(d.members[id].actor)
    ensures Run(Step, d, [BeginHire(id), CommitHire(id)]) == Some(With(d, id, Hire(d.members[id].actor)))
  {
    RunTwo(Step, d, BeginHire(id), CommitHire(id));
    var begun := Step(d, BeginHire(id)).value;
    assert Step(begun, CommitHire(id)).value.members == With(d, id, Hire(d.members[id].actor)).members;
  }

  /** Undisturbed, the two sections of fire are the method fire. */
  lemma UndisturbedFire(d: Device, id: ActorID, watcher: Option<nat>)
    requires Idle(d, id) && d.members[id].actor.contract.Some?
    requires watcher.Some? ==> watcher.value in DueWatchers(d.members[id].actor)
    ensures Run(Step, d, [BeginFire(id, watcher), CommitFire(id)]) ==
      Some(With(d, id, WatcherDone(Fire(d.members[id].actor), watcher)))
  {
    RunTwo(Step, d, BeginFire(id, watcher), CommitFire(id));
    var begun := Step(d, BeginFire(id, watcher)).value;
    assert Step(begun, CommitFire(id)).value.members ==
      With(d, id, WatcherDone(Fire(d.members[id].actor), watcher)).members;
  }

  /** Undisturbed, the two steps of a visit are what the method Shutdown does to the actor. */
  lemma UndisturbedVisit(d: Device, id: ActorID)
    requires Idle(d, id) && d.phase.Visiting? && d.phase.disconnected.None? && id in d.phase.remaining
    ensures Run(Step, d, [Disconnect(id), CancelVisited(id)]) ==
      Some(With(d, id, Dismiss(d.members[id].actor)).(phase := Visiting(d.phase.remaining - {id}, None)))
  {
    RunTwo(Step, d, Disconnect(id), CancelVisited(id));
    var begun := Step(d, Disconnect(id)).value;
    var m := d.members[id];
    assert begun.members[id] == m.(actor := m.actor.(isConnected := false));
    assert Step(begun, CancelVisited(id)).value.members == With(d, id, Dismiss(m.actor)).members;
  }

  predicate IsValid(d: Device, id: ActorID, contract: nat) {
    id in d.members && d.members[id].actor.contract == Some(contract) && contract !in d.members[id].actor.cancelled
  }

  /** After `more`, the watcher w ends a contract that nobody has cancelled. */
  ghost predicate EndsUncancelled(d: Device, id: ActorID, contract: nat, more: seq<Action>, w: nat) {
    var r := Run(Step, d, more);
    && r.Some? && IsValid(r.value, id, contract)
    && var e := Run(Step, r.value, [BeginFire(id, Some(w)), CommitFire(id)]);
    && e.Some? && e.value.members[id].actor.contract.None?
  }

  /** Only its own watcher is left to end this contract. */
  ghost predicate Safe(d: Device, id: ActorID, contract: nat) {
    && id in d.members && contract < d.members[id].actor.nextContract
    && (d.members[id].actor.contract == Some(contract) ==> d.members[id].actor.watchers <= {contract})
  }

  lemma {:induction false} SafeStays(d: Device, more: seq<Action>, id: ActorID, contract: nat)
    requires Safe(d, id, contract)
    ensures var r := Run(Step, d, more); r.Some? ==> Safe(r.value, id, contract)
  {
    RunKeeps(Step, e => Safe(e, id, contract), d, more);
  }

  /** A watcher of another contract is due, and may call fire at once. */
  lemma StaleWatcherEnds(d: Device, id: ActorID, contract: nat) returns (w: nat)
    requires Inv(d) && Idle(d, id) && IsValid(d, id, contract)
    requires d.members[id].actor.watchers != {contract}
    ensures EndsUncancelled(d, id, contract, [], w)
  {
    assert Guarded(d.members[id]);
    w :| w in d.members[id].actor.watchers && w != contract;
    UndisturbedFire(d, id, Some(w));
  }

  lemma SafeEndsCancelled(d: Device, id: ActorID, contract: nat, more: seq<Action>, w: nat)
    requires Safe(d, id, contract)
    ensures !EndsUncancelled(d, id, contract, more, w)
  {
    SafeStays(d, more, id, contract);
    var r := Run(Step, d, more);
    if r.Some? && IsValid(r.value, id, contract) {
      RunTwo(Step, r.value, BeginFire(id, Some(w)), CommitFire(id));
    }
  }

  /** In every reachable state, a valid contract can be ended by a watcher without having been
      cancelled if and only if a watcher of another contract is pending. */
  lemma {:induction false} ContractIsSafeExactly(d0: Device, actions: seq<Action>, id: ActorID, contract: nat)
    requires Booted(d0)
    requires var r := Run(Step, d0, actions); r.Some? && Idle(r.value, id) && IsValid(r.value, id, contract)
    ensures var d := Run(Step, d0, actions).value;
      (exists more, w :: EndsUncancelled(d, id, contract, more, w)) <==> d.members[id].actor.watchers != {contract}
  {
    RunsKeepInv(d0, actions);
    var d := Run(Step, d0, actions).value;
    assert MemberInv(d.members[id], Visited(d, id));
    if d.members[id].actor.watchers != {contract} {
      var w := StaleWatcherEnds(d, id, contract);
    } else {
      forall more, w ensures !EndsUncancelled(d, id, contract, more, w) {
        SafeEndsCancelled(d, id, contract, more, w);
      }
    }
  }

  /** In every reachable state, the contract that a hire signs can be ended so if and only if a
      watcher is pending when it is signed. */
  lemma {:induction false} HireIsSafeExactly(d0: Device, actions: seq<Action>, id: ActorID)
    requires Booted(d0)
    requires var r := Run(Step, d0, actions); r.Some? && id in r.value.members && r.value.members[id].lock.Hiring?
    ensures var d := Run(Step, d0, actions).value;
      var hired := Step(d, CommitHire(id)).value;
      var contract := d.members[id].actor.nextContract;
      && IsValid(hired, id, contract)
      && ((exists more, w :: EndsUncancelled(hired, id, contract, more, w)) <==> d.members[id].actor.watchers != {})
  {
    RunsKeepInv(d0, actions);
    var d := Run(Step, d0, actions).value;
    assert MemberInv(d.members[id], Visited(d, id));
    var contract := d.members[id].actor.nextContract;
    var hired := Step(d, CommitHire(id)).value;
    RunConcat(Step, d0, actions, [CommitHire(id)]);
    RunOne(Step, d, CommitHire(id));
    ContractIsSafeExactly(d0, actions + [CommitHire(id)], id, contract);
    assert hired.members[id].actor.watchers == d.members[id].actor.watchers + {contract};
    assert contract !in d.members[id].actor.watchers;
  }

  /** Such a contract exists: the watcher of an earlier, cancelled
      contract calls fire after the actor has been hired again. */
  lemma StaleWatcherEndsLaterContract(id: ActorID)
    ensures var d0 := Device(map[id := Member(NEW_ACTOR, Free)], Serving);
      var hire := [BeginHire(id), CommitHire(id)];
      var r := Run(Step, d0, hire + [BeginFire(id, None), CommitFire(id)] + hire);
      && r.Some? && r.value.members[id].actor.contract == Some(1) && 1 !in r.value.members[id].actor.cancelled
      && var late := Run(Step, r.value, [BeginFire(id, Some(0)), CommitFire(id)]);
         late.Some? && late.value.members[id].actor.contract.None?
  {
    var d0 := Device(map[id := Member(NEW_ACTOR, Free)], Serving);
    var hire := [BeginHire(id), CommitHire(id)];
    var fire := [BeginFire(id, None), CommitFire(id)];
    UndisturbedHire(d0, id);
    var hired := With(d0, id, Hire(NEW_ACTOR));
    UndisturbedFire(hired, id, None);
    var fired := With(hired, id, Fire(Hire(NEW_ACTOR)));
    UndisturbedHire(fired, id);
    var rehired := With(fired, id, Hire(Fire(Hire(NEW_ACTOR))));
    UndisturbedFire(rehired, id, Some(0));
    RunConcat(Step, d0, hire, fire);
    RunConcat(Step, d0, hire + fire, hire);
  }
}
