/**
 * The distributed lock: SET NX PX with an owner token, compare-token release and
 * extend, and a fencing counter taken by a separate INCR. Redis is a store of keys
 * with expiry instants under a clock that only moves forward.
 */
module RedisLock {
  import opened Common

  /** A lock key, by number: the key of a unit's lock is the number of the unit. */
  type Key = nat

  datatype Held = Held(token: nat, expiresAt: int)

  datatype Store = Store(held: map<Key, Held>, fences: map<Key, nat>)

  /** The token that owns a key: an expired key has no owner. */
  function Owner(store: Store, key: Key, now: int): Option<nat> {
    if key in store.held && store.held[key].expiresAt > now then Some(store.held[key].token) else None
  }

  /** SET key token PX ttl NX. */
  function SetNx(store: Store, key: Key, token: nat, ttlMs: nat, now: int): Option<Store> {
    if Owner(store, key, now).Some? then None
    else Some(store.(held := store.held[key := Held(token, now + ttlMs)]))
  }

  function Fence(store: Store, key: Key): nat {
    if key in store.fences then store.fences[key] else 0
  }

  /** INCR key:fence; the new value is the fence. */
  function Incr(store: Store, key: Key): Store {
    store.(fences := store.fences[key := Fence(store, key) + 1])
  }

  /** The release script: delete the key only while it carries this token. */
  function Released(store: Store, key: Key, token: nat, now: int): Store {
    if Owner(store, key, now) == Some(token) then store.(held := store.held - {key}) else store
  }

  /** The extend script: a new expiry only while the key carries this token. */
  function Extended(store: Store, key: Key, token: nat, ttlMs: nat, now: int): Store {
    if Owner(store, key, now) == Some(token) then store.(held := store.held[key := Held(token, now + ttlMs)]) else store
  }

  /**
   * Who owns a key at an instant: the token of its latest write, until the expiry that
   * the write gave it; and what each command leaves, key by key and instant by instant.
   */
  lemma CommandsByInstant(store: Store, key: Key, token: nat, ttlMs: nat, now: int, other: Key, t: int)
    ensures Owner(store, other, t) == if other in store.held && t < store.held[other].expiresAt then Some(store.held[other].token) else None
    ensures SetNx(store, key, token, ttlMs, now).None? <==> key in store.held && now < store.held[key].expiresAt
    ensures
      var written := if t < now + ttlMs then Some(token) else None;
      var mine := key in store.held && now < store.held[key].expiresAt && store.held[key].token == token;
      && (SetNx(store, key, token, ttlMs, now).Some? ==>
            Owner(SetNx(store, key, token, ttlMs, now).value, other, t) == if other == key then written else Owner(store, other, t))
      && Owner(Released(store, key, token, now), other, t) == (if mine && other == key then None else Owner(store, other, t))
      && Owner(Extended(store, key, token, ttlMs, now), other, t) == (if mine && other == key then written else Owner(store, other, t))
    ensures Owner(Incr(store, key), other, t) == Owner(store, other, t)
    ensures Fence(Incr(store, key), other) == Fence(store, other) + if other == key then 1 else 0
  {
  }

  /** Neither script ever changes a lock that another token owns, nor any other key. */
  lemma ScriptsSpareOthers(store: Store, key: Key, token: nat, ttlMs: nat, now: int, other: Key)
    requires other != key || Owner(store, key, now) != Some(token)
    ensures Owner(Released(store, key, token, now), other, now) == Owner(store, other, now)
    ensures Owner(Extended(store, key, token, ttlMs, now), other, now) == Owner(store, other, now)
  {
  }

  /** The state of the lock in Redis before one attempt, as other clients leave it, and the instant. */
  datatype Moment = Moment(store: Store, now: int)

  datatype AcquiredLock = AcquiredLock(key: Key, token: nat, fence: nat, ttlMs: nat)

  datatype LockError = LockNotAcquired

  predicate FreeAt(m: Moment, key: Key) {
    Owner(m.store, key, m.now).None?
  }

  class RedisLockService {
    var store: Store
    var now: int

    constructor (store: Store, now: int)
      ensures this.store == store && this.now == now
    {
      this.store, this.now := store, now;
    }

    /**
     * Up to retries + 1 attempts, one at each moment the environment presents. The
     * lock is granted at the first moment the key is free, and only then.
     */
    method Acquire(key: Key, token: nat, ttlMs: nat, retries: nat, moments: seq<Moment>)
      returns (r: Result<AcquiredLock, LockError>)
      requires |moments| == retries + 1
      modifies this
      ensures r.Failure? <==> forall i :: 0 <= i <= retries ==> !FreeAt(moments[i], key)
      ensures r.Failure? ==> store == moments[retries].store && now == moments[retries].now
      ensures r.Success? ==>
        && r.value.key == key && r.value.token == token && r.value.ttlMs == ttlMs
        && exists i :: 0 <= i <= retries && FreeAt(moments[i], key)
             && (forall k :: 0 <= k < i ==> !FreeAt(moments[k], key))
             && now == moments[i].now
             && store == Incr(SetNx(moments[i].store, key, token, ttlMs, now).value, key)
             && r.value.fence == Fence(moments[i].store, key) + 1
    {
      for attempt := 0 to retries + 1
        invariant forall k :: 0 <= k < attempt ==> !FreeAt(moments[k], key)
        invariant attempt > 0 ==> store == moments[attempt - 1].store && now == moments[attempt - 1].now
      {
        store, now := moments[attempt].store, moments[attempt].now;
        var ok := SetNx(store, key, token, ttlMs, now);
        if ok.Some? {
          store := Incr(ok.value, key);
          var fence := Fence(store, key);
          assert FreeAt(moments[attempt], key);
          return Success(AcquiredLock(key, token, fence, ttlMs));
        }
      }
      return Failure(LockNotAcquired);
    }

    /** Deletes the key if it is still ours; says whether it was. */
    method Release(lock: AcquiredLock) returns (released: bool)
      modifies this
      ensures released == (Owner(old(store), lock.key, now) == Some(lock.token))
      ensures now == old(now) && store == Released(old(store), lock.key, lock.token, now)
      ensures released ==> Owner(store, lock.key, now) == None
    {
      released := Owner(store, lock.key, now) == Some(lock.token);
      if released {
        store := store.(held := store.held - {lock.key});
      }
    }

    method Extend(lock: AcquiredLock, ttlMs: nat) returns (extended: bool)
      modifies this
      ensures extended == (Owner(old(store), lock.key, now) == Some(lock.token))
      ensures now == old(now) && store == Extended(old(store), lock.key, lock.token, ttlMs, now)
      ensures extended ==> store.held[lock.key].expiresAt == now + ttlMs
    {
      extended := Owner(store, lock.key, now) == Some(lock.token);
      if extended {
        store := store.(held := store.held[lock.key := Held(lock.token, now + ttlMs)]);
      }
    }
  }

  // ---- any number of clients ----

  /**
   * One acquisition, in the order the SET NX calls succeeded; its position is its
   * token. `fencedAsOwner` records whether the key was still owned at the INCR.
   */
  datatype Grant = Grant(
    key: Key, acquiredAt: int, deadline: int,
    fence: Option<nat>, fencedAsOwner: bool, released: bool)

  datatype Clients = Clients(store: Store, now: int, grants: seq<Grant>)

  datatype Act =
    | Wait(elapsed: nat)
    | TrySetNx(key: Key, ttlMs: nat)
    | TakeFence(g: nat)
    | DoExtend(g: nat, ttlMs: nat)
    | DoRelease(g: nat)

  function Start(now: int): Clients {
    Clients(Store(map[], map[]), now, [])
  }

  predicate Owns(c: Clients, g: nat)
    requires g < |c.grants|
  {
    Owner(c.store, c.grants[g].key, c.now) == Some(g)
  }

  function Do(c: Clients, act: Act): Option<Clients> {
    match act
    case Wait(elapsed) => Some(c.(now := c.now + elapsed))
    case TrySetNx(key, ttlMs) =>
      var ok := SetNx(c.store, key, |c.grants|, ttlMs, c.now);
      if ok.None? then None
      else Some(c.(store := ok.value, grants := c.grants + [Grant(key, c.now, c.now + ttlMs, None, false, false)]))
    case TakeFence(g) =>
      if g >= |c.grants| || c.grants[g].fence.Some? then None
      else
        var store := Incr(c.store, c.grants[g].key);
        Some(c.(store := store, grants := c.grants[g := c.grants[g].(
                  fence := Some(Fence(store, c.grants[g].key)), fencedAsOwner := Owns(c, g))]))
    case DoExtend(g, ttlMs) =>
      if g >= |c.grants| then None
      else
        Some(c.(store := Extended(c.store, c.grants[g].key, g, ttlMs, c.now),
                grants := if Owns(c, g) then c.grants[g := c.grants[g].(deadline := c.now + ttlMs)] else c.grants))
    case DoRelease(g) =>
      if g >= |c.grants| then None
      else
        Some(c.(store := Released(c.store, c.grants[g].key, g, c.now),
                grants := c.grants[g := c.grants[g].(released := true)]))
  }

  /** The key in the store belongs to its latest acquisition, with that acquisition's deadline. */
  ghost predicate StoreIsLatest(c: Clients) {
    forall key :: key in c.store.held ==> LatestFor(c, key)
  }

  ghost predicate LatestFor(c: Clients, key: Key)
    requires key in c.store.held
  {
    var h := c.store.held[key];
    && h.token < |c.grants| && c.grants[h.token].key == key && c.grants[h.token].deadline == h.expiresAt
    && forall g :: h.token < g < |c.grants| ==> c.grants[g].key != key
  }

  ghost predicate FencesCounted(c: Clients) {
    forall g :: 0 <= g < |c.grants| && c.grants[g].fence.Some? ==> c.grants[g].fence.value <= Fence(c.store, c.grants[g].key)
  }

  /** An acquisition that was overtaken without releasing had run past its deadline first. */
  ghost predicate OvertakenLapsed(c: Clients) {
    && (forall g :: 0 <= g < |c.grants| ==> c.grants[g].acquiredAt <= c.now)
    && (forall g :: 0 <= g < |c.grants| && !c.grants[g].released && c.grants[g].deadline > c.now ==> Owns(c, g))
    && (forall g, h :: 0 <= g < h < |c.grants| && c.grants[g].key == c.grants[h].key && !c.grants[g].released ==>
          c.grants[g].deadline <= c.grants[h].acquiredAt)
  }

  ghost predicate LockInv(c: Clients) {
    StoreIsLatest(c) && FencesCounted(c) && OvertakenLapsed(c)
  }

  lemma DoKeepsLatest(c: Clients, act: Act)
    requires StoreIsLatest(c) && Do(c, act).Some?
    ensures StoreIsLatest(Do(c, act).value)
  {
    var c' := Do(c, act).value;
    forall key | key in c'.store.held ensures LatestFor(c', key) {
      if key in c.store.held {
        assert LatestFor(c, key);
      }
    }
  }

  lemma DoKeepsFences(c: Clients, act: Act)
    requires FencesCounted(c) && Do(c, act).Some?
    ensures FencesCounted(Do(c, act).value)
  {
  }

  /** A key that is free has no unreleased acquisition before its deadline. */
  lemma AcquireKeepsOvertaken(c: Clients, key: Key, ttlMs: nat)
    requires StoreIsLatest(c) && OvertakenLapsed(c) && Do(c, TrySetNx(key, ttlMs)).Some?
    ensures OvertakenLapsed(Do(c, TrySetNx(key, ttlMs)).value)
  {
    var c' := Do(c, TrySetNx(key, ttlMs)).value;
    var n := |c.grants|;
    assert Owner(c.store, key, c.now).None?;
    forall g | 0 <= g < n && c.grants[g].key == key && !c.grants[g].released
      ensures c.grants[g].deadline <= c.now
    {
      assert !Owns(c, g);
    }
    forall g | 0 <= g < n && !c'.grants[g].released && c'.grants[g].deadline > c'.now
      ensures Owns(c', g)
    {
      assert c'.grants[g] == c.grants[g] && Owns(c, g);
    }
  }

  lemma OthersKeepOvertaken(c: Clients, act: Act)
    requires StoreIsLatest(c) && OvertakenLapsed(c) && Do(c, act).Some?
    requires act.Wait? || act.TakeFence?
    ensures OvertakenLapsed(Do(c, act).value)
  {
    var c' := Do(c, act).value;
    forall g | 0 <= g < |c'.grants| && !c'.grants[g].released && c'.grants[g].deadline > c'.now
      ensures Owns(c', g)
    {
      assert Owns(c, g);
    }
  }

  lemma ScriptsKeepOvertaken(c: Clients, act: Act)
    requires StoreIsLatest(c) && OvertakenLapsed(c) && Do(c, act).Some?
    requires act.DoExtend? || act.DoRelease?
    ensures OvertakenLapsed(Do(c, act).value)
  {
    var c' := Do(c, act).value;
    forall g | 0 <= g < |c'.grants| && !c'.grants[g].released && c'.grants[g].deadline > c'.now
      ensures Owns(c', g)
    {
      if g != act.g {
        assert c'.grants[g] == c.grants[g] && Owns(c, g);
        ScriptsSpareOthers(c.store, c.grants[act.g].key, act.g, if act.DoExtend? then act.ttlMs else 0, c.now, c.grants[g].key);
      }
    }
  }

  lemma DoKeepsOvertaken(c: Clients, act: Act)
    requires StoreIsLatest(c) && OvertakenLapsed(c) && Do(c, act).Some?
    ensures OvertakenLapsed(Do(c, act).value)
  {
    hide OvertakenLapsed, StoreIsLatest, Do;
    match act
    case Wait(_) => OthersKeepOvertaken(c, act);
    case TrySetNx(key, ttlMs) => AcquireKeepsOvertaken(c, key, ttlMs);
    case TakeFence(_) => OthersKeepOvertaken(c, act);
    case DoExtend(_, _) => ScriptsKeepOvertaken(c, act);
    case DoRelease(_) => ScriptsKeepOvertaken(c, act);
  }

  ghost predicate LockRun(trace: seq<Clients>) {
    && |trace| > 0 && trace[0] == Start(trace[0].now)
    && forall i :: 0 <= i < |trace| - 1 ==> Steps(trace[i], trace[i + 1])
  }

  ghost predicate Steps(c: Clients, c': Clients) {
    exists act :: Do(c, act) == Some(c')
  }

  lemma {:induction false} RunKeepsLock(trace: seq<Clients>, i: nat)
    requires LockRun(trace) && i < |trace|
    ensures LockInv(trace[i])
    decreases i
  {
    if i > 0 {
      RunKeepsLock(trace, i - 1);
      assert Steps(trace[i - 1], trace[i]);
      var act :| Do(trace[i - 1], act) == Some(trace[i]);
      DoKeepsLatest(trace[i - 1], act);
      DoKeepsFences(trace[i - 1], act);
      DoKeepsOvertaken(trace[i - 1], act);
    }
  }

  // ---- the order of fences ----

  /** An acquisition that has a fence. */
  predicate Fenced(c: Clients, g: nat) {
    g < |c.grants| && c.grants[g].fence.Some?
  }

  /** A fence is kept for good, and one that is taken exceeds the counter it was taken from. */
  lemma FenceStep(c: Clients, act: Act, g: nat)
    requires Do(c, act).Some? && g < |Do(c, act).value.grants|
    ensures
      var c' := Do(c, act).value;
      && (g < |c.grants| ==> c'.grants[g].key == c.grants[g].key)
      && (Fenced(c, g) ==> c'.grants[g].fence == c.grants[g].fence && c'.grants[g].fencedAsOwner == c.grants[g].fencedAsOwner)
      && (Fenced(c', g) && !Fenced(c, g) ==>
            act == TakeFence(g) && c'.grants[g].fence.value == Fence(c'.store, c'.grants[g].key) == Fence(c.store, c'.grants[g].key) + 1)
    ensures forall key :: Fence(c.store, key) <= Fence(Do(c, act).value.store, key)
  {
  }

  /** After the INCR of g: its fence is counted, and h's is below it exactly if h had its own first. */
  ghost predicate Divided(c: Clients, g: nat, h: nat, hFirst: bool) {
    && Fenced(c, g) && c.grants[g].fence.value <= Fence(c.store, c.grants[g].key)
    && (hFirst ==> Fenced(c, h))
    && (Fenced(c, h) && c.grants[h].key == c.grants[g].key ==>
          if hFirst then c.grants[h].fence.value < c.grants[g].fence.value
          else c.grants[g].fence.value < c.grants[h].fence.value)
  }

  lemma TakingDivides(c: Clients, g: nat, h: nat)
    requires FencesCounted(c) && g != h && Do(c, TakeFence(g)).Some?
    ensures Divided(Do(c, TakeFence(g)).value, g, h, Fenced(c, h))
  {
  }

  lemma StepKeepsDivided(c: Clients, act: Act, g: nat, h: nat, hFirst: bool)
    requires Divided(c, g, h, hFirst) && g != h && Do(c, act).Some?
    ensures Divided(Do(c, act).value, g, h, hFirst)
  {
    var c' := Do(c, act).value;
    hide Do;
    FenceStep(c, act, g);
    if h < |c'.grants| {
      FenceStep(c, act, h);
    }
  }

  lemma {:induction false} StaysDivided(trace: seq<Clients>, k: nat, j: nat, g: nat, h: nat)
    requires LockRun(trace) && k < j < |trace| && g != h && Do(trace[k], TakeFence(g)) == Some(trace[k + 1])
    ensures Divided(trace[j], g, h, Fenced(trace[k], h))
    decreases j
  {
    hide Do, Divided, Fenced;
    if j == k + 1 {
      RunKeepsLock(trace, k);
      TakingDivides(trace[k], g, h);
    } else {
      StaysDivided(trace, k, j - 1, g, h);
      assert Steps(trace[j - 1], trace[j]);
      var act :| Do(trace[j - 1], act) == Some(trace[j]);
      StepKeepsDivided(trace[j - 1], act, g, h, Fenced(trace[k], h));
    }
  }

  /**
   * In every run, of two acquisitions of one key that have both taken a fence, the
   * first has the smaller one if and only if the other had none yet at the first's
   * INCR: fences follow the order of the INCRs, not that of the acquisitions.
   */
  lemma FenceOrderIff(trace: seq<Clients>, k: nat, i: nat, g: nat, h: nat)
    requires LockRun(trace) && k < i < |trace| && Do(trace[k], TakeFence(g)) == Some(trace[k + 1])
    requires g != h && Fenced(trace[i], h) && g < |trace[i].grants| && trace[i].grants[g].key == trace[i].grants[h].key
    ensures Fenced(trace[i], g) && trace[i].grants[g].fence != trace[i].grants[h].fence
    ensures trace[i].grants[g].fence.value < trace[i].grants[h].fence.value <==> !Fenced(trace[k], h)
  {
    StaysDivided(trace, k, i, g, h);
  }

  /** Every fence was taken by an INCR of the run. */
  lemma {:induction false} TakenAt(trace: seq<Clients>, i: nat, g: nat) returns (k: nat)
    requires LockRun(trace) && i < |trace| && Fenced(trace[i], g)
    ensures k < i && Do(trace[k], TakeFence(g)) == Some(trace[k + 1])
    ensures g < |trace[k].grants| && trace[k].grants[g].key == trace[i].grants[g].key
    ensures trace[i].grants[g].fencedAsOwner == Owns(trace[k], g)
    decreases i
  {
    assert i > 0;
    assert Steps(trace[i - 1], trace[i]);
    var act :| Do(trace[i - 1], act) == Some(trace[i]);
    FenceStep(trace[i - 1], act, g);
    if Fenced(trace[i - 1], g) {
      k := TakenAt(trace, i - 1, g);
    } else {
      k := i - 1;
    }
  }

  /**
   * So in every run the fences handed out for one key are distinct, and an acquisition
   * that took its fence while it still owned the key has a smaller fence than every
   * later acquisition.
   */
  lemma FencesFollowAcquisition(trace: seq<Clients>, i: nat, g: nat, h: nat)
    requires LockRun(trace) && i < |trace| && g < h < |trace[i].grants|
    requires trace[i].grants[g].key == trace[i].grants[h].key
    requires trace[i].grants[g].fence.Some? && trace[i].grants[h].fence.Some?
    ensures trace[i].grants[g].fence != trace[i].grants[h].fence
    ensures trace[i].grants[g].fencedAsOwner ==> trace[i].grants[g].fence.value < trace[i].grants[h].fence.value
  {
    var k := TakenAt(trace, i, g);
    FenceOrderIff(trace, k, i, g, h);
    RunKeepsLock(trace, k);
    if Owns(trace[k], g) && Fenced(trace[k], h) {
      assert LatestFor(trace[k], trace[k].grants[g].key);
      KeysStay(trace, k, i, h);
    }
  }

  lemma {:induction false} KeysStay(trace: seq<Clients>, k: nat, i: nat, h: nat)
    requires LockRun(trace) && k <= i < |trace| && h < |trace[k].grants|
    ensures h < |trace[i].grants| && trace[i].grants[h].key == trace[k].grants[h].key
    decreases i
  {
    if k < i {
      KeysStay(trace, k, i - 1, h);
      assert Steps(trace[i - 1], trace[i]);
      var act :| Do(trace[i - 1], act) == Some(trace[i]);
      FenceStep(trace[i - 1], act, h);
    }
  }

  /**
   * In every run: two holders of one key that have both not released overlap only
   * because the earlier one ran past its deadline before the later one acquired.
   */
  lemma HoldersOverlapOnlyAfterLapse(trace: seq<Clients>, i: nat, g: nat, h: nat)
    requires LockRun(trace) && i < |trace| && g < h < |trace[i].grants|
    requires trace[i].grants[g].key == trace[i].grants[h].key
    requires !trace[i].grants[g].released
    ensures trace[i].grants[g].deadline <= trace[i].grants[h].acquiredAt <= trace[i].now
    ensures !Owns(trace[i], g)
  {
    RunKeepsLock(trace, i);
  }

  /** Taken after the lapse, fences can come in the opposite order. */
  lemma LateFenceInverts(key: Key, ttlMs: nat) returns (trace: seq<Clients>)
    ensures LockRun(trace)
    ensures
      var grants := trace[|trace| - 1].grants;
      |grants| == 2 && grants[0].key == grants[1].key == key && grants[0].fence == Some(2) && grants[1].fence == Some(1)
  {
    var c0 := Start(0);
    var c1 := Do(c0, TrySetNx(key, ttlMs)).value;
    var c2 := Do(c1, Wait(ttlMs)).value;
    var c3 := Do(c2, TrySetNx(key, ttlMs)).value;
    var c4 := Do(c3, TakeFence(1)).value;
    var c5 := Do(c4, TakeFence(0)).value;
    trace := [c0, c1, c2, c3, c4, c5];
    assert Steps(c0, c1) && Steps(c1, c2) && Steps(c2, c3) && Steps(c3, c4) && Steps(c4, c5);
  }
}
