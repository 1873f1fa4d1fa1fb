/** The versioned key-value state machine that replays the Paxos log. */
module KvStateMachine {

  type Key = string

  /** A decoded `PaxosKVPB`: what a log value asks the state machine to do. */
  datatype Command =
    | Get(key: Key)
    | Put(key: Key, data: string, version: nat)

  /** A Paxos log value: the empty string, or the serialization of a command. */
  datatype LogValue = Empty | Logged(command: Command)

  datatype Versioned = Versioned(data: string, version: nat)

  /** The store and the instance of the last command that succeeded (0: none). Both are durable. */
  datatype Store = Store(data: map<Key, Versioned>, applied: nat)

  const EMPTY_STORE := Store(map[], 0)

  /** `version_id` is a 64-bit unsigned integer. */
  const VERSION_LIMIT := 0x1_0000_0000_0000_0000

  /** The empty value parses to the protobuf defaults: a GET of the empty key. */
  function Decode(value: LogValue): Command {
    match value
    case Empty => Get("")
    case Logged(command) => command
  }

  /** The version `KV::Put` compares with. Repair: a missing key has version 0 (the source leaves it unset). */
  function VersionOf(store: Store, key: Key): nat {
    if key in store.data then store.data[key].version else 0
  }

  predicate Succeeds(store: Store, command: Command) {
    match command
    case Get(key) => key in store.data
    case Put(key, _, version) => VersionOf(store, key) == version
  }

  /** `KVStatemachine::Execute`: apply the command and, only if it succeeded, record the instance. */
  function Apply(store: Store, ins: nat, value: LogValue): Store {
    var command := Decode(value);
    if !Succeeds(store, command) then store
    else match command
      case Get(_) => store.(applied := ins)
      case Put(key, data, version) =>
        Store(store.data[key := Versioned(data, (version + 1) % VERSION_LIMIT)], ins)
  }

  /** Left-to-right execution of instances `from` up to (not including) `to`. `value` gives the log. */
  function Run(store: Store, value: nat -> LogValue, from: nat, to: nat): Store
    decreases to
  {
    if to <= from then store else Apply(Run(store, value, from, to - 1), to - 1, value(to - 1))
  }

  /** The store after the whole log below `to`; instance 1 is the first. */
  function Fold(value: nat -> LogValue, to: nat): Store {
    Run(EMPTY_STORE, value, 1, to)
  }

  lemma {:induction false} RunCompose(store: Store, value: nat -> LogValue, from: nat, mid: nat, to: nat)
    requires from <= mid <= to
    ensures Run(store, value, from, to) == Run(Run(store, value, from, mid), value, mid, to)
  {
    if mid == to {
    } else {
      RunCompose(store, value, from, mid, to - 1);
    }
  }

  /** Two logs that agree below `to` give the same store. */
  lemma {:induction false} RunExtensional(store: Store, v: nat -> LogValue, w: nat -> LogValue, from: nat, to: nat)
    requires forall i :: from <= i < to ==> v(i) == w(i)
    ensures Run(store, v, from, to) == Run(store, w, from, to)
  {
    if from >= to {
    } else {
      RunExtensional(store, v, w, from, to - 1);
    }
  }

  /** Executing an applied command again at the same instance changes nothing. */
  lemma ReapplyIsIdle(store: Store, ins: nat, value: LogValue)
    requires Succeeds(store, Decode(value))
    ensures var after := Apply(store, ins, value); Apply(after, ins, value) == after
  {
  }

  /** Of two writers that read the same version of a key only the first succeeds. */
  lemma FirstWriterWins(store: Store, ins: nat, key: Key, first: string, second: string, version: nat)
    ensures var after := Apply(store, ins, Logged(Put(key, first, version)));
      Succeeds(store, Put(key, first, version)) ==> !Succeeds(after, Put(key, second, version))
  {
  }

  /** The log value at this instance asks to put the key. */
  predicate IsPut(value: LogValue, key: Key) {
    value.Logged? && value.command.Put? && value.command.key == key
  }

  /** The instance of the last put of the key that took effect below `end`; 0 if none did. */
  function LastPut(value: nat -> LogValue, key: Key, end: nat): (i: nat)
    ensures i != 0 ==> 1 <= i < end && IsPut(value(i), key)
    decreases end, 0
  {
    if end <= 1 then 0
    else if IsPut(value(end - 1), key) && value(end - 1).command.version == VersionAfter(value, key, end - 1) then end - 1
    else LastPut(value, key, end - 1)
  }

  /** The version a put of the key must name at `end`: one more than that of the last put that took effect. */
  function VersionAfter(value: nat -> LogValue, key: Key, end: nat): nat
    decreases end, 1
  {
    var i := LastPut(value, key, end);
    if i == 0 then 0 else (value(i).command.version + 1) % VERSION_LIMIT
  }

  /**
    WHAT THE STORE HOLDS. Under each key there is the data of the last put of this key that took effect, with the
    version behind the one it named, and nothing if none did: a put takes effect exactly if it names the version
    the put before it left; reads, and puts that name another version, change nothing.
    */
  lemma {:induction false} StoreHoldsLastPuts(value: nat -> LogValue, key: Key, to: nat)
    ensures var s, i := Fold(value, to), LastPut(value, key, to);
      && (key in s.data <==> i != 0)
      && (i != 0 ==> s.data[key] == Versioned(value(i).command.data, (value(i).command.version + 1) % VERSION_LIMIT))
  {
    if to <= 1 {
    } else {
      StoreHoldsLastPuts(value, key, to - 1);
    }
  }

  /** The applied instance is one that succeeded, and every later one failed: the shape of a folded log. */
  lemma {:induction false} FoldShape(value: nat -> LogValue, to: nat)
    ensures var s := Fold(value, to);
      && (s.applied == 0 ==> s == EMPTY_STORE)
      && (s.applied != 0 ==>
            && 1 <= s.applied < to
            && Succeeds(Fold(value, s.applied), Decode(value(s.applied)))
            && s == Fold(value, s.applied + 1))
      && (forall i :: 1 <= i && s.applied < i < to ==> !Succeeds(s, Decode(value(i))))
  {
    if to <= 1 {
    } else {
      FoldShape(value, to - 1);
    }
  }

  /** Commands that fail leave the store as it is. */
  lemma {:induction false} FailuresAreIdle(store: Store, value: nat -> LogValue, from: nat, to: nat)
    requires forall i :: from <= i < to ==> !Succeeds(store, Decode(value(i)))
    ensures Run(store, value, from, to) == store
  {
    if from >= to {
    } else {
      FailuresAreIdle(store, value, from, to - 1);
    }
  }

  /** Re-running a folded log from its own applied instance reproduces it. */
  lemma RerunFromApplied(value: nat -> LogValue, to: nat)
    requires to >= 1 && value(0) == Empty
    ensures var s := Fold(value, to); s.applied < to && Run(s, value, s.applied, to) == s
  {
    FoldShape(value, to);
    var s := Fold(value, to);
    RunCompose(s, value, s.applied, s.applied + 1, to);
    if s.applied != 0 {
      ReapplyIsIdle(Fold(value, s.applied), s.applied, value(s.applied));
    }
    FailuresAreIdle(s, value, s.applied + 1, to);
  }

  /**
    Recovery: a store that had executed the log below `done` is brought up to `target` by re-running the log
    starting AT the last applied instance. The result is the one left-to-right fold, whichever of the two
    instances is the later; an empty log value stands at instance 0.
    */
  lemma RecoveryEqualsFold(value: nat -> LogValue, done: nat, target: nat)
    requires done >= 1 && value(0) == Empty
    ensures var s := Fold(value, done);
      Run(s, value, s.applied, target) == if done <= target then Fold(value, target) else s
  {
    var s := Fold(value, done);
    FoldShape(value, done);
    if done <= target {
      RerunFromApplied(value, done);
      RunCompose(s, value, s.applied, done, target);
      RunCompose(EMPTY_STORE, value, 1, done, target);
    } else if s.applied < target {
      RunCompose(s, value, s.applied, s.applied + 1, target);
      if s.applied != 0 {
        ReapplyIsIdle(Fold(value, s.applied), s.applied, value(s.applied));
      }
      FailuresAreIdle(s, value, s.applied + 1, target);
    }
  }

  /** Nothing succeeds between the applied instance and the end of the log: the fold is already complete there. */
  lemma FoldStableAfterApplied(value: nat -> LogValue, early: nat, late: nat)
    requires 1 <= early <= late && Fold(value, late).applied < early
    ensures Fold(value, early) == Fold(value, late)
  {
    var s := Fold(value, late);
    FoldShape(value, late);
    if s.applied == 0 {
      RunCompose(EMPTY_STORE, value, 1, early, late);
      FailuresAreIdle(EMPTY_STORE, value, 1, early);
    } else {
      FailuresAreIdle(s, value, s.applied + 1, early);
      RunCompose(EMPTY_STORE, value, 1, s.applied + 1, early);
    }
  }

  /** `KVStatemachine` over `KV`: the store it updates in place. */
  class KvMachine {
    var data: map<Key, Versioned>
    var applied: nat

    ghost function Value(): Store
      reads this
    {
      Store(data, applied)
    }

    constructor (store: Store)
      ensures Value() == store
    {
      data := store.data;
      applied := store.applied;
    }

    /** `KV::Get`: whether the key is there. */
    method Get(key: Key) returns (found: bool, version: nat)
      ensures found == (key in data)
      ensures version == VersionOf(Value(), key)
    {
      found := key in data;
      version := if found then data[key].version else 0;
    }

    /** `KV::Put`: refuse unless the caller names the stored version. */
    method Put(key: Key, value: string, version: nat) returns (done: bool)
      modifies this`data
      ensures done == (VersionOf(old(Value()), key) == version)
      ensures data == if done then old(data)[key := Versioned(value, (version + 1) % VERSION_LIMIT)] else old(data)
    {
      var found, stored := Get(key);
      if stored != version {
        return false;
      }
      data := data[key := Versioned(value, (version + 1) % VERSION_LIMIT)];
      return true;
    }

    /**
      `Execute`: a put that names the stored version stores its data under its key; nothing else changes any key. The
      applied instance moves only when the command succeeds.
      */
    method Execute(ins: nat, value: LogValue) returns (done: bool)
      modifies this
      ensures Value() == Apply(old(Value()), ins, value)
      ensures applied == if done then ins else old(applied)
      ensures match Decode(value)
        case Get(key) => done == (key in old(data)) && data == old(data)
        case Put(key, written, version) =>
          && done == ((if key in old(data) then old(data)[key].version else 0) == version)
          && data.Keys == old(data).Keys + (if done then {key} else {})
          && (forall k :: k in data && (k != key || !done) ==> data[k] == old(data)[k])
          && (done ==> data[key] == Versioned(written, (version + 1) % VERSION_LIMIT))
    {
      match Decode(value) {
        case Get(key) =>
          var found, version := Get(key);
          done := found;
        case Put(key, data, version) =>
          done := Put(key, data, version);
      }
      if !done {
        return;
      }
      applied := ins;
    }
  }
}
