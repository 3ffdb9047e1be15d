/** What a trace of calls says about ownership: which objects are alive, who created them, whose
    credentials the shared PSK buffers hold.  `Lawful` is the contract every call of a run is held
    to; the lemmas read its consequences off a whole trace. */
module Ledger {
  import opened Platform

  datatype Creds = Creds(hint: seq<byte>, key: seq<byte>)

  /** What is known of an object: its kind, and the object it was made from (an SSL's CTX). */
  datatype Obj = Obj(kind: Kind, parent: nat)

  /** The objects alive after these calls. */
  function Live(t: Trace): map<nat, Obj> {
    if t == [] then map[]
    else
      var e := t[|t| - 1];
      var before := Live(t[..|t| - 1]);
      if Makes(e.op) != NoObject && Ok(e.op, e.ret) then before[|t| := Obj(Makes(e.op), e.on)]
      else if Destroys(e.op) then before - {e.on}
      else before
  }

  /** The credentials last written to the shared PSK buffers (zero-filled at boot). */
  function LastCreds(t: Trace): Creds {
    if t == [] then Creds([], [])
    else
      var e := t[|t| - 1];
      if e.op.StoreCreds? then Creds(e.op.hint, e.op.key) else LastCreds(t[..|t| - 1])
  }

  /** wolfSSL's reference count: successful wolfSSL_Init calls less wolfSSL_Cleanup calls. */
  function InitBalance(t: Trace): int {
    if t == [] then 0
    else
      var e := t[|t| - 1];
      InitBalance(t[..|t| - 1])
      + (if e.op.Init? && Ok(e.op, e.ret) then 1 else if e.op.Cleanup? then -1 else 0)
  }

  /** The boot-time constructor runs first and may fail to create the mutex. */
  predicate LockExists(t: Trace) {
    t != [] && t[0].op.CreateMutex? && Ok(t[0].op, t[0].ret)
  }

  /** Object `h` is alive and of kind `k`. */
  predicate Is(t: Trace, h: nat, k: Kind) {
    h in Live(t) && Live(t)[h].kind == k
  }

  /** No SSL made from this CTX is alive. */
  predicate Childless(t: Trace, ctx: nat) {
    forall h :: h in Live(t) && Live(t)[h].kind == SslObject ==> Live(t)[h].parent != ctx
  }

  predicate Registered(t: Trace, ctx: nat) {
    exists i :: 0 <= i < |t| && t[i].op.SetPskCallback? && t[i].on == ctx
  }

  /** The contract of one call after the calls `t`:
      the object worked on is alive and of the right kind (NULL only where wolfSSL checks for it),
      a CTX is freed only once no SSL made from it is alive, the mutex exists when it is used and is
      given back only when taken or by the PSK callback, the PSK buffers are written only right after
      taking the mutex from free, and the PSK callback is run only for an SSL whose CTX registered it
      and hands out what the buffers hold. */
  ghost predicate Legal(t: Trace, e: Event) {
    && (WorksOn(e.op) != NoObject ==>
          || Is(t, e.on, WorksOn(e.op))
          || ((e.op.Connect? || e.op.Accept? || e.op.GetError?) && e.on == 0))
    && (WorksOn(e.op) == NoObject ==> e.on == 0)
    && (e.op.CtxFree? ==> Childless(t, e.on))
    && (e.op.TakeLock? ==> LockExists(t) && (Ok(e.op, e.ret) <==> !Taken(t)))
    && (e.op.GiveLock? ==> LockExists(t) && (Taken(t) || (t != [] && t[|t| - 1].op.Deliver?)))
    && (e.op.StoreCreds? ==>
          && t != [] && t[|t| - 1].op.TakeLock? && Ok(TakeLock, t[|t| - 1].ret)
          && e.op.key != [])
    && (e.op.SetPskCallback? ==> t != [] && t[|t| - 1].op.StoreCreds? && t[|t| - 1].on == e.on)
    && (e.op.Deliver? ==>
          && LastCreds(t) == Creds(e.op.identity, e.op.secret)
          && e.on in Live(t) && Registered(t, Live(t)[e.on].parent))
  }

  ghost predicate Lawful(t: Trace) {
    t == [] || (Lawful(t[..|t| - 1]) && Legal(t[..|t| - 1], t[|t| - 1]))
  }

  // ----- one more call

  lemma Snoc(t: Trace, e: Event)
    ensures (t + [e])[..|t|] == t && (t + [e])[|t|] == e
    ensures Live(t + [e]) ==
            if Makes(e.op) != NoObject && Ok(e.op, e.ret) then Live(t)[|t| + 1 := Obj(Makes(e.op), e.on)]
            else if Destroys(e.op) then Live(t) - {e.on} else Live(t)
    ensures LastCreds(t + [e]) ==
            if e.op.StoreCreds? then Creds(e.op.hint, e.op.key) else LastCreds(t)
    ensures Taken(t + [e]) ==
            if e.op.TakeLock? && Ok(e.op, e.ret) then true
            else if e.op.GiveLock? then false else Taken(t)
    ensures InitBalance(t + [e]) == InitBalance(t)
            + (if e.op.Init? && Ok(e.op, e.ret) then 1 else if e.op.Cleanup? then -1 else 0)
    ensures Lawful(t + [e]) <==> Lawful(t) && Legal(t, e)
  {
    assert (t + [e])[..|t|] == t;
  }

  /** Objects are named by the call that made them, so names are never reused and an object is
      younger than the one it was made from. */
  lemma {:induction false} LiveBound(t: Trace)
    requires Lawful(t)
    ensures forall h :: h in Live(t) ==> Live(t)[h].parent < h <= |t| && Live(t)[h].kind != NoObject
  {
    if t != [] {
      LiveBound(t[..|t| - 1]);
    }
  }

  lemma {:induction false} LiveIsMade(t: Trace, h: nat)
    requires h in Live(t)
    ensures 1 <= h <= |t| && Live(t)[h] == Obj(Makes(t[h - 1].op), t[h - 1].on)
  {
    var s := t[..|t| - 1];
    if !(Makes(t[|t| - 1].op) != NoObject && Ok(t[|t| - 1].op, t[|t| - 1].ret) && h == |t|) {
      LiveIsMade(s, h);
    }
  }

  /** `Lawful` holds every single call of the trace to the contract. */
  lemma {:induction false} LawfulAt(t: Trace, i: nat)
    requires Lawful(t) && i < |t|
    ensures Lawful(t[..i]) && Legal(t[..i], t[i])
  {
    if i < |t| - 1 {
      LawfulAt(t[..|t| - 1], i);
      assert t[..|t| - 1][..i] == t[..i];
    }
  }

  lemma {:induction false} TakenNeedsLock(t: Trace)
    requires Lawful(t) && Taken(t)
    ensures LockExists(t)
  {
    var s := t[..|t| - 1];
    if !t[|t| - 1].op.TakeLock? {
      TakenNeedsLock(s);
    }
  }

  /** A registered callback implies that the mutex exists and that real credentials are stored. */
  lemma {:induction false} RegisteredNeedsLock(t: Trace, i: nat)
    requires Lawful(t) && i < |t| && t[i].op.SetPskCallback?
    ensures LockExists(t) && LastCreds(t).key != []
    decreases |t|
  {
    var s := t[..|t| - 1];
    if i < |s| {
      RegisteredNeedsLock(s, i);
    } else {
      LawfulAt(s, |s| - 1);
      LawfulAt(s[..|s| - 1], |s| - 2);
    }
  }

  // ----- consequences for a whole trace

  lemma {:induction false} GoneForGood(t: Trace, n: nat, h: nat)
    requires n <= |t| && h <= n && h !in Live(t[..n])
    ensures h !in Live(t)
    decreases |t| - n
  {
    if n < |t| {
      Snoc(t[..n], t[n]);
      assert t[..n] + [t[n]] == t[..n + 1];
      GoneForGood(t, n + 1, h);
    } else {
      assert t[..n] == t;
    }
  }

  /** Freed means gone, for the rest of the trace. */
  lemma FreedIsGone(t: Trace, i: nat, j: nat)
    requires i < j <= |t| && Destroys(t[i].op) && t[i].on <= i
    ensures t[i].on !in Live(t[..j])
  {
    var s := t[..j];
    Snoc(s[..i], s[i]);
    assert s[..i] + [s[i]] == s[..i + 1];
    GoneForGood(s, i + 1, t[i].on);
  }

  lemma UsedIsAlive(t: Trace, j: nat)
    requires Lawful(t) && j < |t| && WorksOn(t[j].op) != NoObject
    ensures t[j].on in Live(t[..j]) || (t[j].on == 0 && !Destroys(t[j].op))
    ensures t[j].on <= j && (Destroys(t[j].op) ==> t[j].on != 0)
  {
    LawfulAt(t, j);
    LiveBound(t[..j]);
  }

  /** No call uses an object after it was freed. */
  lemma NoUseAfterFree(t: Trace, i: nat, j: nat)
    requires Lawful(t) && i < j < |t|
    requires Destroys(t[i].op) && WorksOn(t[j].op) != NoObject
    ensures t[j].on != t[i].on
  {
    UsedIsAlive(t, i);
    UsedIsAlive(t, j);
    LawfulAt(t, i);
    FreedIsGone(t, i, j);
  }

  /** No object is freed twice. */
  lemma FreedAtMostOnce(t: Trace, i: nat, j: nat)
    requires Lawful(t) && i < j < |t|
    requires Destroys(t[i].op) && Destroys(t[j].op)
    ensures t[i].on != t[j].on
  {
    NoUseAfterFree(t, i, j);
  }

  /** An object that is gone was freed by some call after its creation. */
  lemma {:induction false} GoneWasFreed(t: Trace, h: nat) returns (k: nat)
    requires 1 <= h <= |t| && h !in Live(t)
    requires Makes(t[h - 1].op) != NoObject && Ok(t[h - 1].op, t[h - 1].ret)
    ensures h <= k < |t| && Destroys(t[k].op) && t[k].on == h
  {
    var s := t[..|t| - 1];
    if Destroys(t[|t| - 1].op) && t[|t| - 1].on == h {
      k := |t| - 1;
    } else {
      assert h <= |s|;
      k := GoneWasFreed(s, h);
    }
  }

  /** When a CTX is freed, no SSL made from it is alive. */
  lemma ChildIsGone(t: Trace, made: nat, i: nat)
    requires Lawful(t) && made < i < |t|
    requires t[made].op.SslNew? && t[i].op.CtxFree? && t[i].on == t[made].on
    ensures made + 1 !in Live(t[..i])
  {
    LawfulAt(t, i);
    if made + 1 in Live(t[..i]) {
      LiveIsMade(t[..i], made + 1);
      assert false;
    }
  }

  /** When a CTX is freed, every SSL ever made from it has been freed by wolfSSL_free before. */
  lemma SslFreedBeforeItsCtx(t: Trace, made: nat, i: nat) returns (k: nat)
    requires Lawful(t) && made < i < |t|
    requires t[made].op.SslNew? && Ok(SslNew, t[made].ret)
    requires t[i].op.CtxFree? && t[i].on == t[made].on
    ensures made < k < i && t[k].op.SslFree? && t[k].on == made + 1
  {
    ChildIsGone(t, made, i);
    k := GoneWasFreed(t[..i], made + 1);
    LawfulAt(t, k);
    LiveIsMade(t[..k], made + 1);
  }

  // ----- PSK

  lemma {:induction false} UntouchedCreds(t: Trace, n: nat)
    requires n <= |t|
    requires forall k :: n <= k < |t| ==> !t[k].op.StoreCreds?
    ensures LastCreds(t) == LastCreds(t[..n])
  {
    if n < |t| {
      UntouchedCreds(t[..|t| - 1], n);
      assert t[..|t| - 1][..n] == t[..n];
    } else {
      assert t[..n] == t;
    }
  }

  lemma {:induction false} StaysTaken(t: Trace, n: nat)
    requires n <= |t| && Taken(t[..n])
    requires forall k :: n <= k < |t| ==> !t[k].op.GiveLock?
    ensures Taken(t)
  {
    if n < |t| {
      assert t[..|t| - 1][..n] == t[..n];
      StaysTaken(t[..|t| - 1], n);
    } else {
      assert t[..n] == t;
    }
  }

  lemma DeliveryKeepsTaken(t: Trace, i: nat)
    requires i < |t| && t[i].op.Deliver?
    ensures Taken(t[..i + 1]) == Taken(t[..i])
  {
    assert t[..i + 1][..i] == t[..i];
  }

  /** A release finds the mutex free exactly if it is that of a PSK callback that already started with the
      mutex free. */
  lemma GivenBackWhenTaken(t: Trace, i: nat)
    requires Lawful(t) && i < |t| && t[i].op.GiveLock?
    ensures LockExists(t[..i])
    ensures !Taken(t[..i]) <==> i > 0 && t[i - 1].op.Deliver? && !Taken(t[..i - 1])
  {
    LawfulAt(t, i);
    if i > 0 && t[i - 1].op.Deliver? {
      DeliveryKeepsTaken(t, i - 1);
    } else if i > 0 {
      assert t[..i][|t[..i]| - 1] == t[i - 1];
    }
  }

  /** The shared buffers change only in a call right after one that took the mutex from free. */
  lemma CredsChangeUnderFreshLock(t: Trace, n: nat)
    requires Lawful(t) && n < |t| && LastCreds(t[..n + 1]) != LastCreds(t[..n])
    ensures n > 0 && t[n].op.StoreCreds? && t[n - 1].op.TakeLock?
    ensures !Taken(t[..n - 1]) && Taken(t[..n]) && Taken(t[..n + 1])
  {
    Snoc(t[..n], t[n]);
    assert t[..n] + [t[n]] == t[..n + 1];
    LawfulAt(t, n);
    assert t[..n][|t[..n]| - 1] == t[n - 1];
    LawfulAt(t, n - 1);
    Snoc(t[..n - 1], t[n - 1]);
    assert t[..n - 1] + [t[n - 1]] == t[..n];
  }

  /** The shared buffers are rewritten only after the mutex was given back: between two writes
      there is a release. */
  lemma ReleaseBetweenStores(t: Trace, i: nat, j: nat) returns (k: nat)
    requires Lawful(t) && i < j < |t|
    requires t[i].op.StoreCreds? && t[j].op.StoreCreds?
    ensures i < k < j && t[k].op.GiveLock?
  {
    LawfulAt(t, i);
    LawfulAt(t, j);
    assert t[..j][|t[..j]| - 1] == t[j - 1];
    assert t[j - 1].op.TakeLock?;
    LawfulAt(t, j - 1);
    var s := t[..j - 1];
    Snoc(t[..i - 1], t[i - 1]);
    assert t[..i - 1] + [t[i - 1]] == t[..i];
    assert t[..i][|t[..i]| - 1] == t[i - 1];
    assert s[..i] == t[..i];
    if forall k :: i <= k < |s| ==> !s[k].op.GiveLock? {
      StaysTaken(s, i);
      assert false;
    } else {
      k :| i <= k < |s| && s[k].op.GiveLock?;
    }
  }

  /** Round trip of PSK credentials: if the mutex was not given back between a connection's write of
      its credentials and a run of the callback, the callback hands out exactly those. */
  lemma CredentialsRoundTrip(t: Trace, i: nat, j: nat)
    requires Lawful(t) && i < j < |t|
    requires t[i].op.StoreCreds? && t[j].op.Deliver?
    requires forall k :: i < k < j ==> !t[k].op.GiveLock?
    ensures t[j].op == Deliver(t[i].op.hint, t[i].op.key)
  {
    LawfulAt(t, j);
    var s := t[..j];
    forall k | i + 1 <= k < |s| ensures !s[k].op.StoreCreds? {
      if s[k].op.StoreCreds? {
        var g := ReleaseBetweenStores(t, i, k);
        assert false;
      }
    }
    UntouchedCreds(s, i + 1);
    Snoc(t[..i], t[i]);
    assert t[..i] + [t[i]] == t[..i + 1] == s[..i + 1];
  }
}
