/** Reference-counted locks by key, under every interleaving of their atomic
    sections: registering, taking the token, giving up, unlocking and releasing. */
module KeyedLocks {

  type Key = string
  type Thread = nat

  /** One shared lock: a one-slot token channel and a count of interested threads. */
  class KeyedLock {
    var token: bool
    var refs: nat

    constructor ()
      ensures !token && refs == 0
    {
      token, refs := false, 0;
    }
  }

  /** Where a thread is; the entry is the one it captured when it registered. */
  datatype Pc =
    | Idle
    | Waiting(key: Key, entry: KeyedLock)
    | Holding(key: Key, entry: KeyedLock)
    | Releasing(key: Key, entry: KeyedLock)

  datatype Action = Register(name: Key) | Acquire | GiveUp | Unlock | Release

  /** A thread counts from registration until its release has finished. */
  ghost function RegisteredIn(pcs: map<Thread, Pc>, key: Key): set<Thread> {
    set t | t in pcs && pcs[t] != Idle && pcs[t].key == key
  }

  ghost function HoldersIn(pcs: map<Thread, Pc>, key: Key): set<Thread> {
    set t | t in pcs && pcs[t].Holding? && pcs[t].key == key
  }

  /** An entry counts the registered threads, of which there are some, and its token is
      taken exactly when one of them holds the key. */
  ghost predicate Fits(pcs: map<Thread, Pc>, key: Key, refs: nat, token: bool) {
    && refs == |RegisteredIn(pcs, key)| && refs > 0
    && |HoldersIn(pcs, key)| == if token then 1 else 0
  }

  lemma FitsMeans(pcs: map<Thread, Pc>, key: Key, refs: nat, token: bool)
    ensures Fits(pcs, key, refs, token) <==>
              refs == |RegisteredIn(pcs, key)| && refs > 0 && |HoldersIn(pcs, key)| == if token then 1 else 0
  {
  }

  /** A step of one thread concerns only its key. */
  lemma OtherKeys(pcs: map<Thread, Pc>, t: Thread, pc: Pc, key: Key, other: Key, refs: nat, token: bool)
    requires t in pcs && pcs[t] != Idle ==> pcs[t].key == key
    requires pc != Idle ==> pc.key == key
    requires other != key && Fits(pcs, other, refs, token)
    ensures Fits(pcs[t := pc], other, refs, token)
  {
    assert RegisteredIn(pcs[t := pc], other) == RegisteredIn(pcs, other) && HoldersIn(pcs[t := pc], other) == HoldersIn(pcs, other);
  }

  /** What a step does to the counts of its own key. */
  lemma OwnKey(pcs: map<Thread, Pc>, t: Thread, pc: Pc, key: Key)
    requires t in pcs && pcs[t] != Idle ==> pcs[t].key == key
    requires pc != Idle ==> pc.key == key
    ensures var was := if t in pcs then pcs[t] else Idle;
            && |RegisteredIn(pcs[t := pc], key)| == |RegisteredIn(pcs, key)| + (if pc != Idle then 1 else 0) - (if was != Idle then 1 else 0)
            && |HoldersIn(pcs[t := pc], key)| == |HoldersIn(pcs, key)| + (if pc.Holding? then 1 else 0) - (if was.Holding? then 1 else 0)
  {
    RegisteredStep(pcs, t, pc, key);
    HoldersStep(pcs, t, pc, key);
    hide RegisteredIn, HoldersIn;
    Without(RegisteredIn(pcs[t := pc], key), t);
    Without(RegisteredIn(pcs, key), t);
    Without(HoldersIn(pcs[t := pc], key), t);
    Without(HoldersIn(pcs, key), t);
  }

  lemma RegisteredStep(pcs: map<Thread, Pc>, t: Thread, pc: Pc, key: Key)
    requires t in pcs && pcs[t] != Idle ==> pcs[t].key == key
    requires pc != Idle ==> pc.key == key
    ensures RegisteredIn(pcs[t := pc], key) - {t} == RegisteredIn(pcs, key) - {t}
    ensures t in RegisteredIn(pcs[t := pc], key) <==> pc != Idle
    ensures t in RegisteredIn(pcs, key) <==> t in pcs && pcs[t] != Idle
  {
  }

  lemma HoldersStep(pcs: map<Thread, Pc>, t: Thread, pc: Pc, key: Key)
    requires t in pcs && pcs[t] != Idle ==> pcs[t].key == key
    requires pc != Idle ==> pc.key == key
    ensures HoldersIn(pcs[t := pc], key) - {t} == HoldersIn(pcs, key) - {t}
    ensures t in HoldersIn(pcs[t := pc], key) <==> pc.Holding?
    ensures t in HoldersIn(pcs, key) <==> t in pcs && pcs[t].Holding?
  {
  }

  lemma Without<T>(s: set<T>, x: T)
    ensures |s - {x}| == |s| - if x in s then 1 else 0
  {
    if x !in s {
      assert s - {x} == s;
    }
  }

  lemma NobodyLeft(pcs: map<Thread, Pc>, key: Key)
    requires |RegisteredIn(pcs, key)| == 0
    ensures forall t | t in pcs && pcs[t] != Idle :: pcs[t].key != key
  {
    forall t | t in pcs && pcs[t] != Idle ensures pcs[t].key != key {
      assert t !in RegisteredIn(pcs, key);
    }
  }

  class KeyedLocks {
    var locks: map<Key, KeyedLock>
    var pcs: map<Thread, Pc>

    ghost function Entries(): set<KeyedLock>
      reads this
    {
      set k | k in locks :: locks[k]
    }

    /** All threads registered on a key share its entry, which counts them; the token is
        taken exactly when one of them holds the key; and the map holds exactly the
        keys with registered threads. */
    ghost predicate Valid()
      reads this, Entries()
    {
      Shared() && Distinct() && (forall k | k in locks :: Fits(pcs, k, locks[k].refs, locks[k].token))
    }

    ghost predicate Shared()
      reads this`locks, this`pcs
    {
      forall t | t in pcs && pcs[t] != Idle :: pcs[t].key in locks && locks[pcs[t].key] == pcs[t].entry
    }

    ghost predicate Distinct()
      reads this`locks
    {
      forall k, l | k in locks && l in locks && k != l :: locks[k] != locks[l]
    }

    constructor ()
      ensures Valid() && locks == map[] && pcs == map[] && Entries() == {}
    {
      locks, pcs := map[], map[];
    }

    ghost function At(t: Thread): Pc
      reads this
    {
      if t in pcs then pcs[t] else Idle
    }

    /** The first half of `lock`, under the mutex. */
    method RegisterOn(t: Thread, key: Key)
      requires Valid() && At(t) == Idle
      modifies this, Entries()
      ensures Valid() && fresh(Entries() - old(Entries()))
      ensures key in locks && pcs == old(pcs)[t := Waiting(key, locks[key])]
      ensures locks == old(locks)[key := locks[key]] && (key in old(locks) ==> locks == old(locks))
    {
      if key in locks {
        JoinEntry(t, key);
      } else {
        AddEntry(t, key);
      }
    }

    method JoinEntry(t: Thread, key: Key)
      requires Valid() && At(t) == Idle && key in locks
      modifies this`pcs, (locks[key] as KeyedLock)`refs
      ensures Valid() && locks == old(locks) && pcs == old(pcs)[t := Waiting(key, locks[key])]
    {
      hide Fits, RegisteredIn, HoldersIn;
      var entry := locks[key];
      FitsMeans(pcs, key, entry.refs, entry.token);
      entry.refs := entry.refs + 1;
      pcs := pcs[t := Waiting(key, entry)];
      OwnKey(old(pcs), t, pcs[t], key);
      forall k | k in locks && k != key ensures Fits(pcs, k, locks[k].refs, locks[k].token) {
        OtherKeys(old(pcs), t, pcs[t], key, k, locks[k].refs, locks[k].token);
      }
      FitsMeans(pcs, key, entry.refs, entry.token);
    }

    method AddEntry(t: Thread, key: Key)
      requires Valid() && At(t) == Idle && key !in locks
      modifies this
      ensures Valid() && key in locks && fresh(locks[key])
      ensures locks == old(locks)[key := locks[key]] && pcs == old(pcs)[t := Waiting(key, locks[key])]
    {
      NobodyWithoutEntry(key);
      hide Fits, RegisteredIn, HoldersIn;
      var entry := new KeyedLock();
      entry.refs := entry.refs + 1;
      locks := locks[key := entry];
      pcs := pcs[t := Waiting(key, entry)];
      OwnKey(old(pcs), t, pcs[t], key);
      forall k | k in locks && k != key ensures Fits(pcs, k, locks[k].refs, locks[k].token) {
        OtherKeys(old(pcs), t, pcs[t], key, k, locks[k].refs, locks[k].token);
      }
      FitsMeans(pcs, key, entry.refs, entry.token);
    }

    lemma NobodyWithoutEntry(key: Key)
      requires Shared() && key !in locks
      ensures RegisteredIn(pcs, key) == {} && HoldersIn(pcs, key) == {}
    {
    }

    /** Sending on the token channel succeeds only while the slot is free. */
    method TakeToken(t: Thread)
      requires Valid() && At(t).Waiting? && !At(t).entry.token
      modifies this`pcs, At(t).entry`token
      ensures Valid() && locks == old(locks)
      ensures pcs == old(pcs)[t := Holding(old(At(t)).key, old(At(t)).entry)]
    {
      hide Fits, RegisteredIn, HoldersIn;
      var entry, key := pcs[t].entry, pcs[t].key;
      FitsMeans(pcs, key, entry.refs, entry.token);
      entry.token := true;
      pcs := pcs[t := Holding(key, entry)];
      OwnKey(old(pcs), t, pcs[t], key);
      forall k | k in locks && k != key ensures Fits(pcs, k, locks[k].refs, locks[k].token) {
        OtherKeys(old(pcs), t, pcs[t], key, k, locks[k].refs, locks[k].token);
      }
      FitsMeans(pcs, key, entry.refs, entry.token);
    }

    /** The context ended first. */
    method StopWaiting(t: Thread)
      requires Valid() && At(t).Waiting?
      modifies this`pcs
      ensures Valid() && locks == old(locks)
      ensures pcs == old(pcs)[t := Releasing(old(At(t)).key, old(At(t)).entry)]
    {
      hide Fits, RegisteredIn, HoldersIn;
      var entry, key := pcs[t].entry, pcs[t].key;
      FitsMeans(pcs, key, entry.refs, entry.token);
      pcs := pcs[t := Releasing(key, entry)];
      OwnKey(old(pcs), t, pcs[t], key);
      forall k | k in locks && k != key ensures Fits(pcs, k, locks[k].refs, locks[k].token) {
        OtherKeys(old(pcs), t, pcs[t], key, k, locks[k].refs, locks[k].token);
      }
      FitsMeans(pcs, key, entry.refs, entry.token);
    }

    /** The returned unlock function first receives the token back. */
    method GiveToken(t: Thread)
      requires Valid() && At(t).Holding?
      modifies this`pcs, At(t).entry`token
      ensures Valid() && locks == old(locks)
      ensures pcs == old(pcs)[t := Releasing(old(At(t)).key, old(At(t)).entry)]
    {
      hide Fits, RegisteredIn;
      var entry, key := pcs[t].entry, pcs[t].key;
      FitsMeans(pcs, key, entry.refs, entry.token);
      assert t in HoldersIn(pcs, key);
      entry.token := false;
      pcs := pcs[t := Releasing(key, entry)];
      OwnKey(old(pcs), t, pcs[t], key);
      forall k | k in locks && k != key ensures Fits(pcs, k, locks[k].refs, locks[k].token) {
        OtherKeys(old(pcs), t, pcs[t], key, k, locks[k].refs, locks[k].token);
      }
      FitsMeans(pcs, key, entry.refs, entry.token);
    }

    /** `release`, under the mutex: the last thread to leave removes the key. */
    method ReleaseFrom(t: Thread)
      requires Valid() && At(t).Releasing?
      modifies this, Entries()
      ensures Valid() && Entries() <= old(Entries())
      ensures pcs == old(pcs)[t := Idle]
      ensures locks == if |RegisteredIn(old(pcs), old(At(t)).key)| == 1 then old(locks) - {old(At(t)).key} else old(locks)
    {
      hide Fits, RegisteredIn, HoldersIn;
      var entry, key := pcs[t].entry, pcs[t].key;
      FitsMeans(pcs, key, entry.refs, entry.token);
      entry.refs := entry.refs - 1;
      pcs := pcs[t := Idle];
      OwnKey(old(pcs), t, Idle, key);
      forall k | k in locks && k != key ensures Fits(pcs, k, locks[k].refs, locks[k].token) {
        OtherKeys(old(pcs), t, Idle, key, k, locks[k].refs, locks[k].token);
      }
      if entry.refs == 0 {
        locks := locks - {key};
        NobodyLeft(pcs, key);
      } else {
        FitsMeans(pcs, key, entry.refs, entry.token);
      }
    }

    /** Any schedule of any number of threads; a step that is not possible where its
        thread stands is skipped. */
    method Interleave(schedule: seq<(Thread, Action)>)
      requires Valid()
      modifies this, Entries()
      ensures Valid()
    {
      for i := 0 to |schedule|
        invariant Valid() && fresh(Entries() - old(Entries()))
      {
        var t, action := schedule[i].0, schedule[i].1;
        var pc := if t in pcs then pcs[t] else Idle;
        match action {
          case Register(name) => if pc == Idle { RegisterOn(t, name); }
          case Acquire => if pc.Waiting? && !pc.entry.token { TakeToken(t); }
          case GiveUp => if pc.Waiting? { StopWaiting(t); }
          case Unlock => if pc.Holding? { GiveToken(t); }
          case Release => if pc.Releasing? { ReleaseFrom(t); }
        }
      }
    }

    /** Mutual exclusion, sharing, counting and cleanup, read off a reachable state. */
    lemma Guarantees(t: Thread, u: Thread, key: Key)
      requires Valid() && t in pcs && u in pcs
      ensures pcs[t].Holding? && pcs[u].Holding? && pcs[t].key == pcs[u].key ==> t == u
      ensures pcs[t] != Idle && pcs[u] != Idle && pcs[t].key == pcs[u].key ==> pcs[t].entry == pcs[u].entry && pcs[t].entry.refs == |RegisteredIn(pcs, pcs[t].key)|
      ensures key in locks <==> RegisteredIn(pcs, key) != {}
    {
      if key !in locks {
        NobodyWithoutEntry(key);
      }
      if pcs[t].Holding? && pcs[u].Holding? && pcs[t].key == pcs[u].key {
        var k := pcs[t].key;
        assert t in HoldersIn(pcs, k) && u in HoldersIn(pcs, k);
        Without(HoldersIn(pcs, k), t);
      }
    }
  }
}
