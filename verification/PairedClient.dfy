/** The paired device of one window: boot, pairing and unpairing, and the purge of the tenant keys. */
module PairedClient {
  import opened Wrappers
  import opened QueueModel
  import opened QueueFacts
  import opened QueueWorld
  import opened QueueInvariant
  import opened QueueLifeSteps
  import opened QueueRecovery
  import SyncQueue

  // ─── The purge of a set of keys ───

  /** The keys, each at its first place. */
  function Unique(keys: seq<Key>): seq<Key> {
    if keys == [] then []
    else
      var n := |keys| - 1;
      Unique(keys[..n]) + if keys[n] in keys[..n] then [] else [keys[n]]
  }

  function DropsBut(keys: seq<Key>, identityKey: Key): seq<Write> {
    if keys == [] then []
    else
      var n := |keys| - 1;
      DropsBut(keys[..n], identityKey) + if keys[n] == identityKey then [] else [DropItem(keys[n])]
  }

  /** The writes of `purgeKeysWithIdentityLast`. */
  function PurgeOf(keys: seq<Key>, identityKey: Key): seq<Write> {
    DropsBut(Unique(keys), identityKey) + [DropItem(identityKey)]
  }

  lemma {:induction false} UniqueSameKeys(keys: seq<Key>)
    ensures forall key :: key in Unique(keys) <==> key in keys
  {
    if keys != [] {
      var n := |keys| - 1;
      UniqueSameKeys(keys[..n]);
      assert keys == keys[..n] + [keys[n]];
    }
  }

  lemma {:induction false} DropsButFacts(keys: seq<Key>, identityKey: Key)
    ensures forall w :: w in DropsBut(keys, identityKey) <==> w.DropItem? && w.key in keys && w.key != identityKey
  {
    if keys != [] {
      var n := |keys| - 1;
      DropsButFacts(keys[..n], identityKey);
      assert keys == keys[..n] + [keys[n]];
    }
  }

  lemma {:induction false} DropsOnly(d: Disk, ws: seq<Write>, key: Key)
    requires forall w | w in ws :: w.DropItem?
    ensures var d' := ApplyAll(d, ws);
            && (key in d'.items <==> key in d.items && DropItem(key) !in ws)
            && (key in d'.items ==> d'.items[key] == d.items[key])
            && d'.v2 == d.v2
  {
    if ws != [] {
      var n := |ws| - 1;
      assert ws == ws[..n] + [ws[n]] && ws[n].DropItem?;
      DropsOnly(d, ws[..n], key);
    }
  }

  /** Wherever a purge stops, as long as any key of the perimeter is left, so is the identity; a purge that
    * runs to its end leaves none of the keys; no other key is ever touched. */
  lemma IdentityLeavesLast(d: Disk, keys: seq<Key>, identityKey: Key, k: nat, key: Key)
    requires identityKey in keys
    ensures var plan := PurgeOf(keys, identityKey);
            var d' := ApplyAll(d, Prefix(plan, k));
            && (key in keys && key in d'.items && identityKey in d.items ==> identityKey in d'.items)
            && (key in keys && |plan| <= k ==> key !in d'.items)
            && (key !in keys ==> (key in d'.items <==> key in d.items))
  {
    var unique := Unique(keys);
    var drops := DropsBut(unique, identityKey);
    var ws := Prefix(PurgeOf(keys, identityKey), k);
    UniqueSameKeys(keys);
    DropsButFacts(unique, identityKey);
    if k <= |drops| {
      assert ws == drops[..k];
      assert forall w | w in ws :: w in drops;
    } else {
      assert ws == drops + [DropItem(identityKey)];
    }
    DropsOnly(d, ws, key);
    DropsOnly(d, ws, identityKey);
  }

  lemma {:induction false} UniqueOfDistinct(keys: seq<Key>)
    requires forall i, j | 0 <= i < j < |keys| :: keys[i] != keys[j]
    ensures Unique(keys) == keys
  {
    if keys != [] {
      UniqueOfDistinct(keys[..|keys| - 1]);
    }
  }

  lemma {:induction false} OthersFirstAppend(keys: seq<Key>, key: Key)
    ensures OthersFirst(keys + [key]) == OthersFirst(keys) + if key == DEVICE_KEY then [] else [DropItem(key)]
  {
    if keys == [] {
      assert keys + [key] == [key] && [key][1..] == [];
    } else {
      assert (keys + [key])[1..] == keys[1..] + [key];
      OthersFirstAppend(keys[1..], key);
    }
  }

  lemma {:induction false} DropsButIsOthersFirst(keys: seq<Key>)
    ensures DropsBut(keys, DEVICE_KEY) == OthersFirst(keys)
  {
    if keys != [] {
      var n := |keys| - 1;
      DropsButIsOthersFirst(keys[..n]);
      OthersFirstAppend(keys[..n], keys[n]);
      assert keys == keys[..n] + [keys[n]];
    }
  }

  lemma PerimeterDistinct()
    ensures forall i, j | 0 <= i < j < |PERIMETER| :: PERIMETER[i] != PERIMETER[j]
  {
    assert |PERIMETER| == 6;
    assert PERIMETER[0][9] == 's' && PERIMETER[1][7..9] == "de" && PERIMETER[2][7] == 'p' && PERIMETER[3][7..9] == "da";
    assert PERIMETER[4][9] == 'r' && PERIMETER[5][7] == 'l';
  }

  /** On the perimeter of the till, these are the writes of the lifecycle. */
  lemma PurgeOfPerimeter()
    ensures PurgeOf(PERIMETER, DEVICE_KEY) == PurgePlan()
  {
    PerimeterDistinct();
    UniqueOfDistinct(PERIMETER);
    DropsButIsOthersFirst(PERIMETER);
  }

  // ─── The lifecycle, section by section ───

  function Step(protect: bool): (LifeState, Grant) -> LifeState {
    (s: LifeState, g: Grant) => Advance(s.disk, s.queue, s.life, protect, g)
  }

  /** One section after the other, each with its own fate. */
  function Sections(s: LifeState, protect: bool, grants: seq<Grant>): LifeState {
    Fold(Step(protect), s, grants)
  }

  /** A device that the storage holds, as this window knows it. */
  class PairedClient {
    const queue: SyncQueue.SyncQueue
    const store: SyncQueue.KeyValueStore
    var current: Option<Device>

    constructor (queue: SyncQueue.SyncQueue)
      ensures this.queue == queue && store == queue.store && current == None
    {
      this.queue := queue;
      this.store := queue.store;
      current := None;
    }

    /** `purgeKeysWithIdentityLastUnlocked`: every key once, the identity last; a refusal stops it. */
    method PurgeKeysWithIdentityLast(keys: seq<Key>, identityKey: Key) returns (ok: bool, ghost k: nat)
      modifies store
      ensures identityKey == "" || identityKey !in keys ==> !ok && store.View() == old(store.View())
      ensures identityKey != "" && identityKey in keys ==>
                var plan := PurgeOf(keys, identityKey);
                && store.View() == ApplyAll(old(store.View()), Prefix(plan, k))
                && (ok <==> |plan| <= k) && (!store.mayRefuse ==> ok)
    {
      ok, k := false, 0;
      ghost var d0 := store.View();
      if identityKey == "" || identityKey !in keys { return; }
      var unique := [];
      for i := 0 to |keys|
        invariant unique == Unique(keys[..i])
      {
        assert keys[..i + 1][..i] == keys[..i];
        if keys[i] !in keys[..i] {
          unique := unique + [keys[i]];
        }
      }
      assert keys[..|keys|] == keys;
      ghost var plan := PurgeOf(keys, identityKey);
      var done := true;
      var i := 0;
      while i < |unique| && done
        invariant i <= |unique|
        invariant DropsBut(unique[..i], identityKey) <= plan
        invariant done ==> k == |DropsBut(unique[..i], identityKey)|
        invariant k < |plan| && store.View() == ApplyAll(d0, Prefix(plan, k))
        invariant !store.mayRefuse ==> done
      {
        PlanGrows(unique, identityKey, i);
        if unique[i] != identityKey {
          done := store.Perform(DropItem(unique[i]));
          if done {
            Performed(d0, plan, k);
            k := k + 1;
          }
        }
        i := i + 1;
      }
      assert unique[..|unique|] == unique;
      if !done { return; }
      ok := store.Perform(DropItem(identityKey));
      if ok {
        Performed(d0, plan, k);
        k := k + 1;
      }
    }

    /** The purge of the till's own perimeter, as one section of the lifecycle. */
    method PurgePerimeter() returns (ok: bool, ghost g: Grant)
      modifies store
      ensures store.View() == Purged(old(store.View()), g.writes)
      ensures (ok <==> |PurgePlan()| <= g.writes) && (!store.mayRefuse ==> g == GRANT_ALL)
    {
      ghost var k;
      PurgeOfPerimeter();
      PurgePlanLength();
      ok, k := PurgeKeysWithIdentityLast(PERIMETER, DEVICE_KEY);
      g := if ok then GRANT_ALL else Grant(k, WipeRun(0, false, false));
    }

    /** `restoreScopedIdentity`: the identity if it can be decoded, else a clean perimeter. */
    method RestoreScopedIdentity() returns (ok: bool, device: Option<Device>, ghost g: Grant)
      modifies store
      ensures var s := Advance(old(store.View()), queue.View(), Booting, true, g);
              && store.View() == s.disk
              && s.life == (if !ok then Stuck else if device.Some? then BootBind(device.value) else BootAck)
      ensures !store.mayRefuse ==> g == GRANT_ALL
    {
      if DEVICE_KEY in store.items && store.items[DEVICE_KEY].Identity? {
        return true, Some(store.items[DEVICE_KEY].device), GRANT_ALL;
      }
      device := None;
      ok, g := PurgePerimeter();
    }

    /** `restoreIdentityIfUnchanged`. */
    method RestoreIdentityIfUnchanged(expected: Cell, previous: Option<Cell>) returns (restored: bool, ghost k: nat)
      modifies store
      ensures store.View() == if CellAt(old(store.View()), DEVICE_KEY) == Some(expected) && 0 < k
                              then Apply(old(store.View()), if previous.Some? then PutItem(DEVICE_KEY, previous.value) else DropItem(DEVICE_KEY))
                              else old(store.View())
    {
      k := 1;
      if DEVICE_KEY !in store.items || store.items[DEVICE_KEY] != expected { return false, 1; }
      restored := store.Perform(if previous.Some? then PutItem(DEVICE_KEY, previous.value) else DropItem(DEVICE_KEY));
      k := if restored then 1 else 0;
    }

    /** The identity, written through the scoped store of the queue. */
    method SaveIdentity(device: Device) returns (ok: bool, ghost g: Grant)
      requires store == queue.store
      modifies queue, store
      ensures var s := QueueWorld.SaveIdentity(old(store.View()), old(queue.View()), device, g.writes);
              store.View() == s.disk && queue.View() == s.queue && (ok <==> s.verdict == Done)
      ensures !store.mayRefuse ==> g == GRANT_ALL
    {
      if queue.bound.None? { return false, GRANT_ALL; }
      var v := queue.ScopedPerform(Authority(queue.bound.value, queue.epoch, queue.generation),
                                   PutItem(DEVICE_KEY, Identity(device)));
      ok := v == Done;
      g := if v == Refused then Grant(0, WipeRun(0, false, false)) else GRANT_ALL;
    }

    /** `finishInterruptedUnpair`: what is left of the tenant goes, then the purge is acknowledged. */
    method FinishInterruptedUnpair() returns (ok: bool, ghost grants: seq<Grant>)
      requires store == queue.store
      modifies this, queue, store
      ensures Sections(LifeState(old(store.View()), old(queue.View()), BootPurge), true, grants)
           == LifeState(store.View(), queue.View(), if ok then Idle(None) else Stuck)
      ensures AllGranted(store, grants) && |grants| <= 2
      ensures current == if ok then None else old(current)
    {
      ghost var s := LifeState(store.View(), queue.View(), BootPurge);
      ghost var g, k;
      ok, g := PurgePerimeter();
      grants := Begin(s, true, g);
      if !ok { return; }
      var v;
      v, k := queue.CompleteClear();
      grants := Continue(s, true, grants, Grant(k, WipeRun(FULL, true, true)));
      ok := v == Done;
      if ok {
        current := None;
      }
    }

    /** The boot of a till that has an identity: bind its scope again, then put the identity in order. */
    method Rebind(device: Device) returns (ok: bool, restored: Option<Device>, ghost grants: seq<Grant>)
      requires store == queue.store
      modifies this, queue, store
      ensures Sections(LifeState(old(store.View()), old(queue.View()), BootBind(device)), true, grants)
           == LifeState(store.View(), queue.View(), if ok then Idle(restored) else Stuck)
      ensures AllGranted(store, grants) && |grants| <= 3
    {
      ghost var s := LifeState(store.View(), queue.View(), BootBind(device));
      ghost var g, k, rest;
      restored := None;
      var v;
      v, k := queue.BindScope(ScopeOf(device), device.bindingPending);
      grants := Begin(s, true, Grant(k, WipeRun(FULL, true, true)));
      ok := v == Done;
      if v == ScopeRetired {
        ok, rest := FinishInterruptedUnpair();
        grants := Resume(s, true, grants, rest);
      } else if ok {
        restored, g := Some(Committed(device)), GRANT_ALL;
        if device != Committed(device) {
          ok, g := SaveIdentity(Committed(device));
        }
        grants := Continue(s, true, grants, g);
      }
    }

    /** `loadPairedDevice`: however the storage behaves, its sections are those of the lifecycle; when
      * nothing is refused it is the uninterrupted boot. */
    method LoadPairedDevice() returns (ok: bool, device: Option<Device>, ghost grants: seq<Grant>)
      requires store == queue.store
      modifies this, queue, store
      ensures Sections(LifeState(old(store.View()), old(queue.View()), Booting), true, grants)
           == LifeState(store.View(), queue.View(), if ok then Idle(device) else Stuck)
      ensures ok ==> current == device
      ensures !store.mayRefuse && old(queue.View()) == FRESH_QUEUE ==>
                Load(old(store.View())) == LifeState(store.View(), queue.View(), if ok then Idle(device) else Stuck)
      ensures !store.mayRefuse && old(queue.View()) == FRESH_QUEUE && InPerimeter(old(store.View())) ==>
                (ok <==> Recoverable(old(store.View())))
    {
      ghost var s := LifeState(store.View(), queue.View(), Booting);
      ghost var g, k, rest;
      var parsed;
      ok, parsed, g := RestoreScopedIdentity();
      grants := Begin(s, true, g);
      device := None;
      if ok {
        if parsed.Some? {
          ok, device, rest := Rebind(parsed.value);
          grants := Resume(s, true, grants, rest);
        } else {
          var v;
          v, k := queue.CompleteClear();
          grants := Continue(s, true, grants, Grant(k, WipeRun(FULL, true, true)));
          ok := v == Done;
        }
      }
      if ok {
        current := device;
      }
      if !store.mayRefuse && old(queue.View()) == FRESH_QUEUE {
        GrantedIsLoad(s, grants);
        if InPerimeter(s.disk) {
          BootRecoversIff(s.disk);
        }
      }
    }

    /** The last section of a fresh pairing: the identity is put in order, or put back. */
    method Conclude(device: Device, previous: Option<Cell>, bound: bool) returns (ok: bool, ghost g: Grant)
      requires store == queue.store
      modifies queue, store
      ensures LifeState(store.View(), queue.View(), Idle(if ok then Some(Committed(device)) else None))
           == Advance(old(store.View()), old(queue.View()),
                      if bound then PairSave(device, previous) else PairUndo(device, previous), true, g)
    {
      if bound {
        ok, g := SaveIdentity(Committed(device));
      } else {
        var restored;
        ghost var k;
        restored, k := RestoreIdentityIfUnchanged(Identity(Intent(device)), previous);
        ok, g := false, Grant(k, WipeRun(FULL, true, true));
      }
    }

    /** The second half of a fresh pairing: the bind, then the identity; a bind that fails is undone. */
    method BindIntent(device: Device, previous: Option<Cell>) returns (ok: bool, ghost grants: seq<Grant>)
      requires store == queue.store
      modifies queue, store
      ensures Sections(LifeState(old(store.View()), old(queue.View()), PairBind(device, previous)), true, grants)
           == LifeState(store.View(), queue.View(), Idle(if ok then Some(Committed(device)) else None))
    {
      ghost var s := LifeState(store.View(), queue.View(), PairBind(device, previous));
      var v;
      ghost var k, g;
      v, k := queue.BindScope(ScopeOf(device), true);
      grants := Begin(s, true, Grant(k, WipeRun(FULL, true, true)));
      ok, g := Conclude(device, previous, v == Done);
      grants := Continue(s, true, grants, g);
    }

    /** `persist` for a fresh pairing: the intent is written before the scope is bound. */
    method PairFresh(device: Device) returns (ok: bool, ghost grants: seq<Grant>)
      requires store == queue.store && current.None?
      modifies this, queue, store
      ensures Sections(LifeState(old(store.View()), old(queue.View()), PairIntent(device)), true, grants)
           == LifeState(store.View(), queue.View(), Idle(if ok then Some(Committed(device)) else None))
      ensures current == if ok then Some(Committed(device)) else None
    {
      ghost var s := LifeState(store.View(), queue.View(), PairIntent(device));
      ghost var rest;
      var previous := if DEVICE_KEY in store.items then Some(store.items[DEVICE_KEY]) else None;
      ok := store.Perform(PutItem(DEVICE_KEY, Identity(Intent(device))));
      grants := Begin(s, true, Grant(if ok then FULL else 0, WipeRun(FULL, true, true)));
      if ok {
        ok, rest := BindIntent(device, previous);
        grants := Resume(s, true, grants, rest);
      }
      if ok {
        current := Some(Committed(device));
      }
    }

    /** The second half of an unpairing: the tenant cells, then the acknowledgement. */
    method FinishForget(device: Device, protect: bool) returns (ok: bool, ghost grants: seq<Grant>)
      requires store == queue.store
      modifies queue, store
      ensures Sections(LifeState(old(store.View()), old(queue.View()), ForgetPurge(device)), protect, grants)
           == LifeState(store.View(), queue.View(), Idle(if ok then None else Some(device)))
    {
      ghost var s := LifeState(store.View(), queue.View(), ForgetPurge(device));
      ghost var g, k;
      ok, g := PurgePerimeter();
      grants := Begin(s, protect, g);
      if ok {
        var v;
        v, k := queue.CompleteClear();
        grants := Continue(s, protect, grants, Grant(k, WipeRun(FULL, true, true)));
        ok := v == Done;
      }
    }

    /** The scope under which a known device is kept: its own, else that of the current one, else one made from its id. */
    function KeptScope(next: Device): Scope
      reads this
    {
      if next.queueScope.Some? && next.queueScope.value != "" then next.queueScope.value
      else if current.Some? && current.value.queueScope.Some? && current.value.queueScope.value != ""
      then current.value.queueScope.value
      else ScopeOf(next)
    }

    /** `persist` for a device that is already paired: the bind, then the identity. */
    method PersistKnown(next: Device) returns (ok: bool, ghost k: nat, ghost g: Grant)
      requires store == queue.store
      modifies this, queue, store
      ensures old(current) == Some(next) ==>
                ok && current == old(current) && store.View() == old(store.View()) && queue.View() == old(queue.View())
      ensures old(current) != Some(next) ==>
                var device := Device(next.id, Some(old(KeptScope(next))), false);
                var b := BindScope(old(store.View()), old(queue.View()), old(KeptScope(next)), false, k);
                var s := if b.verdict == Done then QueueWorld.SaveIdentity(b.disk, b.queue, device, g.writes) else b;
                && Section(store.View(), queue.View(), s.verdict) == s && (ok <==> s.verdict == Done)
                && current == if ok then Some(device) else old(current)
    {
      k, g := FULL, GRANT_ALL;
      if current == Some(next) { return true, FULL, GRANT_ALL; }
      var scope := KeptScope(next);
      var device := Device(next.id, Some(scope), false);
      var v;
      v, k := queue.BindScope(scope, false);
      ok := v == Done;
      if ok {
        ok, g := SaveIdentity(device);
      }
      if ok {
        current := Some(device);
      }
    }

    /** `forgetPairedDevice`: the queue first, then the tenant cells, then the acknowledgement. */
    method ForgetPairedDevice(protect: bool) returns (ok: bool, ghost grants: seq<Grant>)
      requires store == queue.store && current.Some?
      modifies this, queue, store
      ensures (old(queue.invalidated) || old(queue.bound).None?) ==>
                !ok && store.View() == old(store.View()) && queue.View() == old(queue.View())
      ensures !(old(queue.invalidated) || old(queue.bound).None?) ==>
                Sections(LifeState(old(store.View()), ClearCall(old(queue.View())), ForgetClear(old(current).value)), protect, grants)
                == LifeState(store.View(), queue.View(), Idle(if ok then None else old(current)))
      ensures current == if ok then None else old(current)
    {
      grants := [];
      var v := queue.Clear();
      if v != Done { return false, []; }
      ghost var s := LifeState(store.View(), queue.View(), ForgetClear(current.value));
      ghost var run, rest;
      v, run := queue.RunClear(protect);
      grants := Begin(s, protect, Grant(FULL, run));
      ok := v == Done;
      if ok {
        ok, rest := FinishForget(current.value, protect);
        grants := Resume(s, protect, grants, rest);
      }
      if ok {
        current := None;
      }
    }
  }

  predicate AllGranted(store: SyncQueue.KeyValueStore, grants: seq<Grant>) {
    !store.mayRefuse ==> forall i | 0 <= i < |grants| :: grants[i] == GRANT_ALL
  }

  lemma Begin(s: LifeState, protect: bool, g: Grant) returns (grants: seq<Grant>)
    ensures grants == [g] && Sections(s, protect, grants) == Advance(s.disk, s.queue, s.life, protect, g)
  {
    grants := [] + [g];
    FoldOne(Step(protect), s, [], g);
  }

  lemma Continue(s: LifeState, protect: bool, past: seq<Grant>, g: Grant) returns (grants: seq<Grant>)
    ensures grants == past + [g]
    ensures var before := Sections(s, protect, past);
            Sections(s, protect, grants) == Advance(before.disk, before.queue, before.life, protect, g)
  {
    grants := past + [g];
    FoldOne(Step(protect), s, past, g);
  }

  lemma Resume(s: LifeState, protect: bool, past: seq<Grant>, rest: seq<Grant>) returns (grants: seq<Grant>)
    ensures grants == past + rest
    ensures Sections(s, protect, grants) == Sections(Sections(s, protect, past), protect, rest)
  {
    grants := past + rest;
    FoldConcat(Step(protect), s, past, rest);
  }

  /** Sections that are all granted make the uninterrupted boot. */
  lemma {:induction false} GrantedSections(s: LifeState, grants: seq<Grant>, n: nat)
    requires forall i | 0 <= i < |grants| :: grants[i] == GRANT_ALL
    requires |grants| <= n
    ensures ToRest(Sections(s, true, grants), true, n - |grants|) == ToRest(s, true, n)
  {
    if grants != [] {
      var m := |grants| - 1;
      GrantedSections(s, grants[..m], n);
      FoldOne(Step(true), s, grants[..m], grants[m]);
      assert grants == grants[..m] + [GRANT_ALL];
      AtRestStays(Sections(s, true, grants[..m]), n - m);
    }
  }

  lemma PlanGrows(unique: seq<Key>, identityKey: Key, i: nat)
    requires i < |unique|
    ensures var drops := DropsBut(unique, identityKey);
            var upto, next := DropsBut(unique[..i], identityKey), DropsBut(unique[..i + 1], identityKey);
            upto <= next && next <= drops
            && next == upto + if unique[i] == identityKey then [] else [DropItem(unique[i])]
  {
    assert unique[..i + 1][..i] == unique[..i];
    DropsButPrefix(unique, identityKey, i + 1);
  }

  lemma {:induction false} DropsButPrefix(unique: seq<Key>, identityKey: Key, i: nat)
    requires i <= |unique|
    ensures DropsBut(unique[..i], identityKey) <= DropsBut(unique, identityKey)
    decreases |unique| - i
  {
    if i == |unique| {
      assert unique[..i] == unique;
    } else {
      DropsButPrefix(unique, identityKey, i + 1);
      assert unique[..i + 1][..i] == unique[..i];
    }
  }

  lemma AtRestStays(s: LifeState, n: nat)
    requires 0 < n
    ensures ToRest(Advance(s.disk, s.queue, s.life, true, GRANT_ALL), true, n - 1) == ToRest(s, true, n)
  {
  }

  lemma GrantedIsLoad(s: LifeState, grants: seq<Grant>)
    requires s.life == Booting && s.queue == FRESH_QUEUE && |grants| <= 4
    requires forall i | 0 <= i < |grants| :: grants[i] == GRANT_ALL
    requires var e := Sections(s, true, grants); e.life.Idle? || e.life.Stuck?
    ensures Sections(s, true, grants) == Load(s.disk)
  {
    GrantedSections(s, grants, 4);
  }
}
