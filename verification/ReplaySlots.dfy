/** internal/runtime/runtime.go: the per-target slots of replay imports and exports, a counting
    semaphore made of a buffered channel that LoadOrStore creates on first use. */
module ReplaySlots {
  import opened Basics

  datatype Target = Target(key: string, concurrencyLimit: int)

  /** What an operation is doing: waiting in withReplayTargetSlot, holding a slot, or over. */
  datatype Op = Waiting(target: Target) | Holding(target: Target) | Ended

  /** A buffered channel of empty structs: only its capacity and length matter. */
  datatype Channel = Channel(capacity: nat, len: nat)

  /** missed counts the releases that found the channel empty and took the default branch. */
  datatype State = State(locks: map<string, Channel>, ops: map<nat, Op>, missed: nat)
  {
    function Op(id: nat): Op { if id in ops then ops[id] else Ended }
  }

  datatype Action =
    | Begin(id: nat, target: Target)   // an import or export reaches withReplayTargetSlot
    | Acquire(id: nat)                 // the send case of the select
    | Cancel(id: nat)                  // the ctx.Done case: returns before the deferred release exists
    | Release(id: nat)                 // the operation is over, however it ended

  function Capacity(t: Target): nat {
    if t.concurrencyLimit <= 0 then 1 else t.concurrencyLimit
  }

  /** replayTargetLock */
  function LoadOrStore(locks: map<string, Channel>, t: Target): (r: map<string, Channel>)
    ensures t.key in r
  {
    if t.key in locks then locks else locks[t.key := Channel(Capacity(t), 0)]
  }

  const INIT := State(map[], map[], 0)

  function Exec(s: State, a: Action): State {
    match a
    case Begin(id, target) =>
      if id in s.ops then s
      else s.(locks := LoadOrStore(s.locks, target), ops := s.ops[id := Waiting(target)])
    case Acquire(id) =>
      var op := s.Op(id);
      if !op.Waiting? then s
      else
        var locks := LoadOrStore(s.locks, op.target);
        var ch := locks[op.target.key];
        if ch.len >= ch.capacity then s                  // blocks
        else s.(locks := locks[op.target.key := ch.(len := ch.len + 1)], ops := s.ops[id := Holding(op.target)])
    case Cancel(id) => if s.Op(id).Waiting? then s.(ops := s.ops[id := Ended]) else s
    case Release(id) =>
      var op := s.Op(id);
      if !op.Holding? then s
      else
        var locks := LoadOrStore(s.locks, op.target);
        var ch := locks[op.target.key];
        var s' := s.(ops := s.ops[id := Ended]);
        if ch.len > 0 then s'.(locks := locks[op.target.key := ch.(len := ch.len - 1)])
        else s'.(locks := locks, missed := s.missed + 1)
  }

  function Run(actions: seq<Action>): State {
    if actions == [] then INIT
    else Exec(Run(actions[..|actions| - 1]), actions[|actions| - 1])
  }

  function Holders(ops: map<nat, Op>, key: string): set<nat> {
    set id | id in ops && Holds(ops[id], key)
  }

  function Len(s: State, key: string): nat { if key in s.locks then s.locks[key].len else 0 }

  ghost predicate Inv(s: State, key: string) {
    && |Holders(s.ops, key)| == Len(s, key)
    && (key in s.locks ==> s.locks[key].len <= s.locks[key].capacity && s.locks[key].capacity > 0)
  }

  predicate Holds(op: Op, key: string) { op.Holding? && op.target.key == key }

  lemma HoldersAt(ops: map<nat, Op>, id: nat, op: Op, key: string)
    ensures var before := Holders(ops, key);
            |Holders(ops[id := op], key)| == |before| - (if id in before then 1 else 0) + if Holds(op, key) then 1 else 0
  {
    SizeChange(Holders(ops, key), Holders(ops[id := op], key), id);
  }

  lemma InvStep(s: State, a: Action, key: string)
    requires Inv(s, key)
    ensures Inv(Exec(s, a), key)
  {
    var s' := Exec(s, a);
    if a.id in s'.ops && s' != s {
      HoldersAt(s.ops, a.id, s'.ops[a.id], key);
      assert s'.ops == s.ops[a.id := s'.ops[a.id]];
      HolderCounted(s, a.id, key);
    }
  }

  /** A holder's channel is never empty. */
  lemma HolderCounted(s: State, id: nat, key: string)
    requires Inv(s, key)
    ensures id in Holders(s.ops, key) ==> Len(s, key) > 0
  {
    if id in Holders(s.ops, key) {
      assert |Holders(s.ops, key)| > 0;
    }
  }

  lemma {:induction false} AlwaysInv(actions: seq<Action>, key: string)
    ensures Inv(Run(actions), key)
  {
    if actions == [] {
      assert Holders(map[], key) == {};
    } else {
      AlwaysInv(actions[..|actions| - 1], key);
      InvStep(Run(actions[..|actions| - 1]), actions[|actions| - 1], key);
    }
  }

  /** The capacity of a channel is the limit of the target that was seen first. */
  ghost predicate LimitsAgree(actions: seq<Action>, t: Target) {
    forall a :: a in actions && a.Begin? && a.target.key == t.key ==> a.target == t
  }

  /** The target's channel has its limit for capacity, and whoever uses it is about the target. */
  ghost predicate Fits(s: State, t: Target) {
    && (t.key in s.locks ==> s.locks[t.key].capacity == if t.concurrencyLimit <= 0 then 1 else t.concurrencyLimit)
    && (forall id :: id in s.ops && !s.ops[id].Ended? && s.ops[id].target.key == t.key ==> s.ops[id].target == t)
  }

  lemma FitsStep(s: State, a: Action, t: Target)
    requires Fits(s, t) && (a.Begin? && a.target.key == t.key ==> a.target == t)
    ensures Fits(Exec(s, a), t)
  {
  }

  lemma {:induction false} CapacityIsLimit(actions: seq<Action>, t: Target)
    requires LimitsAgree(actions, t)
    ensures Fits(Run(actions), t)
  {
    if actions == [] {
    } else {
      var a := actions[|actions| - 1];
      assert a in actions;
      CapacityIsLimit(actions[..|actions| - 1], t);
      FitsStep(Run(actions[..|actions| - 1]), a, t);
    }
  }

  /** In every interleaving the holders of a target's slots are as many as its channel's length, and
      never more than its concurrency limit (a limit of zero or less counts as one). */
  lemma AtMostLimitHolders(actions: seq<Action>, t: Target)
    requires LimitsAgree(actions, t)
    ensures var s := Run(actions);
            |Holders(s.ops, t.key)| == Len(s, t.key) <= if t.concurrencyLimit <= 0 then 1 else t.concurrencyLimit
  {
    AlwaysInv(actions, t.key);
    CapacityIsLimit(actions, t);
  }

  /** No release ever takes the default branch, and each gives back exactly one slot of its own target. */
  lemma {:induction false} ReleaseNeverMisses(actions: seq<Action>)
    ensures Run(actions).missed == 0
    ensures forall id, key :: id in Run(actions).ops && Run(actions).ops[id].Holding? ==>
              Len(Exec(Run(actions), Release(id)), key)
              == Len(Run(actions), key) - if Run(actions).ops[id].target.key == key then 1 else 0
    ensures forall id :: id in Run(actions).ops && Run(actions).ops[id].Holding? ==>
              Exec(Run(actions), Release(id)).Op(id) == Ended
  {
    var s := Run(actions);
    forall id | id in s.ops && s.ops[id].Holding? ensures Len(s, s.ops[id].target.key) > 0 {
      AlwaysInv(actions, s.ops[id].target.key);
      HolderCounted(s, id, s.ops[id].target.key);
    }
    if actions == [] {
    } else {
      var before := actions[..|actions| - 1];
      var a := actions[|actions| - 1];
      ReleaseNeverMisses(before);
      if a.Release? && Run(before).Op(a.id).Holding? {
        AlwaysInv(before, Run(before).Op(a.id).target.key);
        HolderCounted(Run(before), a.id, Run(before).Op(a.id).target.key);
      }
    }
  }

  /** A cancelled acquire changes no channel and no holder. */
  lemma CancelReleasesNothing(s: State, id: nat, key: string)
    ensures Len(Exec(s, Cancel(id)), key) == Len(s, key)
    ensures Holders(Exec(s, Cancel(id)).ops, key) == Holders(s.ops, key)
    ensures s.Op(id).Waiting? ==> Exec(s, Cancel(id)).Op(id) == Ended
  {
  }

  /** A waiting operation can get a slot exactly when fewer operations than the limit hold one. */
  lemma AcquirableIff(actions: seq<Action>, id: nat)
    requires Run(actions).Op(id).Waiting?
    requires LimitsAgree(actions, Run(actions).Op(id).target)
    ensures var s := Run(actions);
            var t := s.Op(id).target;
            var limit := if t.concurrencyLimit <= 0 then 1 else t.concurrencyLimit;
            && (Exec(s, Acquire(id)).Op(id) == Holding(t) <==> |Holders(s.ops, t.key)| < limit)
            && (Exec(s, Acquire(id)).Op(id) == Waiting(t) <==> |Holders(s.ops, t.key)| >= limit)
  {
    var t := Run(actions).Op(id).target;
    AtMostLimitHolders(actions, t);
    CapacityIsLimit(actions, t);
  }

  /** A new operation waits; the channel of its target then exists. */
  lemma BeginWaits(s: State, id: nat, t: Target)
    requires id !in s.ops
    ensures var r := Exec(s, Begin(id, t));
            && r.ops == s.ops[id := Waiting(t)] && t.key in r.locks && Len(r, t.key) == Len(s, t.key)
            && (forall key :: key in s.locks ==> key in r.locks && r.locks[key] == s.locks[key])
  {
  }

  /** The slot that a holder gives back is there for whoever waits for the same target. */
  lemma ReleasedSlotIsFree(actions: seq<Action>, holder: nat, waiter: nat, t: Target)
    requires LimitsAgree(actions, t)
    requires var s := Run(actions); s.Op(holder) == Holding(t) && s.Op(waiter) == Waiting(t)
    ensures Exec(Exec(Run(actions), Release(holder)), Acquire(waiter)).Op(waiter) == Holding(t)
  {
    var s := Run(actions);
    AlwaysInv(actions, t.key);
    CapacityIsLimit(actions, t);
    HolderCounted(s, holder, t.key);
  }
}
