/** The sections that acting.go runs under contractMutex, as functions on the state of one actor. */
module Contracts {
  import opened Runs

  datatype Outgoing = YouAreIn | Payload(content: int) | Fired

  /** Contracts are numbered in hiring order. `watchers` are the contracts whose watcher
      goroutine has not called fire yet; it may do so as soon as the contract is cancelled. */
  datatype ActorState = ActorState(
    contract: Option<nat>,
    nextContract: nat,
    isConnected: bool,
    cancelled: set<nat>,
    watchers: set<nat>,
    log: seq<Outgoing>)

  const NEW_ACTOR := ActorState(None, 0, true, {}, {}, [])

  /** forceSend: nothing leaves a disconnected actor. */
  function ForceSend(s: ActorState, m: Outgoing): ActorState {
    if s.isConnected then s.(log := s.log + [m]) else s
  }

  predicate CanHire(s: ActorState) {
    s.contract.None? && s.isConnected
  }

  /** The end of Hire: the new contract is stored and its watcher started. */
  function SignContract(s: ActorState): ActorState {
    s.(contract := Some(s.nextContract),
       nextContract := s.nextContract + 1,
       watchers := s.watchers + {s.nextContract})
  }

  function Hire(s: ActorState): ActorState {
    if CanHire(s) then SignContract(ForceSend(s, YouAreIn)) else s
  }

  /** The end of fire: the contract is cancelled and removed. */
  function EndContract(s: ActorState): ActorState
    requires s.contract.Some?
  {
    s.(cancelled := s.cancelled + {s.contract.value}, contract := None)
  }

  function Fire(s: ActorState): ActorState {
    if s.contract.None? then s else EndContract(ForceSend(s, Outgoing.Fired))
  }

  function Send(s: ActorState, content: int): ActorState {
    if s.contract.None? then s else ForceSend(s, Payload(content))
  }

  /** What the shutdown of the device does to one actor. */
  function Dismiss(s: ActorState): ActorState {
    s.(isConnected := false,
       cancelled := s.cancelled + if s.contract.Some? then {s.contract.value} else {})
  }

  /** The watchers that may call fire at any time from now on. */
  function DueWatchers(s: ActorState): set<nat> {
    s.watchers * s.cancelled
  }

  /** One watcher calls fire. */
  function RunWatcher(s: ActorState, w: nat): ActorState {
    Fire(s).(watchers := s.watchers - {w})
  }
}

/** The network actor, its methods proved against Contracts. */
module Acting {
  import opened Runs
  import opened Contracts
  import opened SubscriptionIndex

  class NetActor {
    var contract: Option<nat>
    var nextContract: nat
    var isConnected: bool
    var cancelled: set<nat>
    var watchers: set<nat>
    var log: seq<Outgoing>
    /** What the current subscription manager holds; None before the first Hire. */
    var subscriptions: Option<Index>

    function State(): ActorState
      reads this
    {
      ActorState(contract, nextContract, isConnected, cancelled, watchers, log)
    }

    /** Contracts are numbered upwards, only a valid one has a watcher without being cancelled, and who
        was ever hired has a subscription manager. */
    ghost predicate Valid()
      reads this
    {
      && (forall c <- cancelled :: c < nextContract)
      && (forall c <- watchers :: c < nextContract)
      && (contract.Some? ==> contract.value in watchers)
      && (forall c <- watchers :: c in cancelled || contract == Some(c))
      && (watchers != {} ==> subscriptions.Some?)
    }

    constructor ()
      ensures Valid() && State() == NEW_ACTOR && subscriptions == None
    {
      contract, nextContract, isConnected, cancelled, watchers, log := None, 0, true, {}, {}, [];
      subscriptions := None;
    }

    method ForceSend(m: Outgoing) returns (ok: bool)
      modifies this`log
      ensures ok == isConnected
      ensures log == old(log) + if ok then [m] else []
      ensures State() == Contracts.ForceSend(old(State()), m)
    {
      if !isConnected {
        return false;
      }
      log := log + [m];
      return true;
    }

    /** The subscription manager is new even when the actor cannot be told. */
    method Hire() returns (ok: bool)
      modifies this
      ensures ok == (old(contract).None? && isConnected) && isConnected == old(isConnected)
      ensures contract == (if ok then Some(old(nextContract)) else old(contract)) && cancelled == old(cancelled)
      ensures log == old(log) + if ok then [YouAreIn] else []
      ensures watchers == old(watchers) + (if ok then {old(nextContract)} else {})
      ensures nextContract == old(nextContract) + if ok then 1 else 0
      ensures State() == Contracts.Hire(old(State()))
      ensures subscriptions == if old(contract).Some? then old(subscriptions) else Some(EMPTY_INDEX)
      ensures old(Valid()) ==> Valid()
    {
      if contract.Some? {
        return false;
      }
      subscriptions := Some(EMPTY_INDEX);
      ok := ForceSend(YouAreIn);
      if ok {
        contract := Some(nextContract);
        watchers := watchers + {nextContract};
        nextContract := nextContract + 1;
      }
    }

    /** All subscriptions are cancelled in the end, with or without a contract; false is the nil
        dereference for an actor that was never hired. */
    method Fire() returns (ok: bool)
      modifies this
      ensures contract == None && isConnected == old(isConnected)
      ensures log == old(log) + if old(contract).Some? && isConnected then [Outgoing.Fired] else []
      ensures cancelled == old(cancelled) + if old(contract).Some? then {old(contract).value} else {}
      ensures watchers == old(watchers) && nextContract == old(nextContract)
      ensures State() == Contracts.Fire(old(State()))
      ensures ok == old(subscriptions).Some?
      ensures subscriptions == Cancelled(old(subscriptions))
      ensures old(Valid()) ==> Valid()
    {
      if contract.Some? {
        var _ := ForceSend(Outgoing.Fired);
        cancelled := cancelled + {contract.value};
        contract := None;
      }
      if subscriptions.None? {
        return false;
      }
      subscriptions := Some(AllCancelled(subscriptions.value));
      return true;
    }

    method Send(content: int) returns (ok: bool)
      modifies this`log
      ensures ok == (contract.Some? && isConnected)
      ensures log == old(log) + if ok then [Payload(content)] else []
      ensures State() == Contracts.Send(old(State()), content)
    {
      if contract.None? {
        return false;
      }
      ok := ForceSend(Payload(content));
    }

    /** The goroutine that waits for the end of a contract, once it has been cancelled. */
    method RunWatcher(w: nat) returns (ok: bool)
      requires w in DueWatchers(State())
      modifies this
      ensures watchers == old(watchers) - {w} && contract == None
      ensures State() == Contracts.RunWatcher(old(State()), w)
      ensures ok == old(subscriptions).Some?
      ensures subscriptions == Cancelled(old(subscriptions))
      ensures old(Valid()) ==> Valid() && ok
    {
      watchers := watchers - {w};
      ok := Fire();
    }
  }

  function Cancelled(subscriptions: Option<Index>): Option<Index> {
    match subscriptions
    case None => None
    case Some(x) => Some(AllCancelled(x))
  }

  class NetActorDevice {
    const actors: map<string, NetActor>

    constructor (actors: map<string, NetActor>)
      ensures this.actors == actors
    {
      this.actors := actors;
    }

    /** Undisturbed, in any order: every actor is dismissed once. */
    method Shutdown()
      modifies actors.Values
      ensures forall a <- actors.Values :: a.State() == Dismiss(old(a.State()))
      ensures forall a <- actors.Values ::
        && !a.isConnected && a.contract == old(a.contract) && a.log == old(a.log)
        && a.cancelled == old(a.cancelled) + if a.contract.Some? then {a.contract.value} else {}
    {
      var rest := actors.Values;
      while rest != {}
        invariant rest <= actors.Values
        invariant forall a <- rest :: a.State() == old(a.State())
        invariant forall a <- actors.Values - rest :: a.State() == Dismiss(old(a.State()))
      {
        var a :| a in rest;
        a.isConnected := false;
        if a.contract.Some? {
          a.cancelled := a.cancelled + {a.contract.value};
        }
        rest := rest - {a};
      }
    }
  }
}
