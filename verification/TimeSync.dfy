/** Time over reboots in the HTTPS example: SNTP with a bounded number of waits, the NVS copy of the
    clock, and NVS handles that nest. */
module TimeSync {
  import opened Platform

  datatype Err = EspOk | EspFail | NvsNotFound | NvsError

  const RETRY_COUNT := 10

  /** What the outside does during one call of this file: the results of the waits in turn, the clock
      once it is synchronised, the results of the NVS calls, and whether a write that was set but not
      committed reaches the flash. */
  datatype Luck = Luck(waits: nat -> bool, synced: int, open: bool, store: bool, commit: bool, keepsUncommitted: bool)

  ghost predicate AnyBefore(waits: nat -> bool, n: nat) {
    exists i :: 0 <= i < n && waits(i)
  }

  // ----- runs

  datatype Snapshot = Snapshot(flash: Option<int>, clock: int)

  ghost function Fetch(luck: Luck, s: Snapshot): (Snapshot, Err) {
    if !AnyBefore(luck.waits, RETRY_COUNT) then (s, EspFail)
    else
      var s1 := s.(clock := luck.synced);
      if !luck.open || !luck.store then (s1, NvsError)
      else
        (if luck.commit || luck.keepsUncommitted then s1.(flash := Some(luck.synced)) else s1,
         if luck.commit then EspOk else NvsError)
  }

  ghost function Updated(opens: bool, readable: bool, luck: Luck, s: Snapshot): (Snapshot, Err) {
    if !opens || !readable then (s, NvsError)
    else if s.flash.Some? then (s.(clock := s.flash.value), EspOk)
    else
      var (s1, err) := Fetch(luck, s);
      (s1, if err == EspOk then EspOk else EspFail)
  }

  /** One of the first ten waits succeeds, and so does every call into NVS. */
  ghost predicate AllGoesWell(luck: Luck) {
    (exists i :: 0 <= i < 10 && luck.waits(i)) && luck.open && luck.store && luck.commit
  }

  /** What a fetch reports and does.  A clock that was set stays set when NVS fails afterwards; a failed commit
      may have replaced the stored time. */
  lemma FetchOutcome(luck: Luck, s: Snapshot)
    ensures var (s1, err) := Fetch(luck, s);
            var synced := exists i :: 0 <= i < 10 && luck.waits(i);
            && (err == EspOk <==> AllGoesWell(luck))
            && (err == EspOk ==> s1 == Snapshot(Some(luck.synced), luck.synced))
            && (err == EspFail <==> !synced)
            && s1.clock == (if synced then luck.synced else s.clock)
            && (s1.flash == s.flash || (s1.flash == Some(luck.synced) && synced && luck.open && luck.store))
            && (err == NvsError && s1.flash != s.flash ==> !luck.commit && luck.keepsUncommitted)
  {
    assert AnyBefore(luck.waits, RETRY_COUNT) <==> exists i :: 0 <= i < 10 && luck.waits(i);
  }

  /** What an update reports and does.  It fetches, and then succeeds if the fetch does, only when nothing is
      stored; after a success clock and flash agree. */
  lemma UpdateOutcome(opens: bool, readable: bool, luck: Luck, s: Snapshot)
    ensures var (s1, err) := Updated(opens, readable, luck, s);
            && (err == EspOk <==> opens && readable && (s.flash.Some? || AllGoesWell(luck)))
            && (err == EspOk ==> s1.flash == Some(s1.clock)
                                 && s1.clock == if s.flash.Some? then s.flash.value else luck.synced)
            && (err == EspFail <==> opens && readable && s.flash.None? && !AllGoesWell(luck))
            && (err == NvsError <==> !opens || !readable) && (err == NvsError ==> s1 == s)
            && (s.flash.Some? ==> s1.flash == s.flash)
  {
    FetchOutcome(luck, s);
  }

  /** What can happen to the device: the daily fetch, the update at power-on, a reboot, time passing. */
  datatype Act =
    | DailyFetch(luck: Luck)
    | PowerOnUpdate(opens: bool, readable: bool, ifMissing: Luck)
    | Restart(clock: int)
    | Tick(seconds: nat)

  ghost function After(s: Snapshot, act: Act): Snapshot {
    match act
    case DailyFetch(luck) => Fetch(luck, s).0
    case PowerOnUpdate(opens, readable, luck) => Updated(opens, readable, luck, s).0
    case Restart(clock) => s.(clock := clock)
    case Tick(n) => s.(clock := s.clock + n)
  }

  ghost function AfterAll(s: Snapshot, acts: seq<Act>): Snapshot
    decreases |acts|
  {
    if acts == [] then s else AfterAll(After(s, acts[0]), acts[1..])
  }

  // ----- the device

  /** The flash keeps its contents over a reboot; the clock, the SNTP client and the open handles do not. */
  class Device {
    var flash: Option<int>
    var clock: int
    var open: set<nat>
    var nextHandle: nat
    var sntp: bool

    /** A handle that NVS hands out is not 0 and not one that is open. */
    ghost predicate Valid()
      reads this
    {
      nextHandle > 0 && forall h :: h in open ==> 0 < h < nextHandle
    }

    constructor (flash: Option<int>, clock: int)
      ensures Valid() && this.flash == flash && this.clock == clock && open == {} && !sntp
    {
      this.flash, this.clock, open, nextHandle, sntp := flash, clock, {}, 1, false;
    }

    method NvsOpen(ok: bool) returns (handle: nat)
      requires Valid()
      modifies `open, `nextHandle
      ensures Valid() && (if ok then handle != 0 && handle !in old(open) && open == old(open) + {handle}
                          else handle == 0 && open == old(open))
    {
      handle := 0;
      if ok {
        handle := nextHandle;
        nextHandle := nextHandle + 1;
        open := open + {handle};
      }
    }

    /** Only an open handle may be closed. */
    method NvsClose(handle: nat)
      requires Valid() && handle in open
      modifies `open
      ensures Valid() && open == old(open) - {handle}
    {
      open := open - {handle};
    }

    /** Only a stopped client may be started, only a started one stopped. */
    method SntpInit()
      requires !sntp
      modifies `sntp
      ensures sntp
    {
      sntp := true;
    }

    method SntpDeinit()
      requires sntp
      modifies `sntp
      ensures !sntp
    {
      sntp := false;
    }

    /** obtain_time: success if one of the first ten waits succeeds, and not one wait more. */
    method ObtainTime(luck: Luck) returns (err: Err, waited: nat)
      modifies `clock
      ensures err == EspOk <==> exists i :: 0 <= i < RETRY_COUNT && luck.waits(i)
      ensures if err == EspOk then
                0 < waited <= RETRY_COUNT && luck.waits(waited - 1) && !AnyBefore(luck.waits, waited - 1)
              else err == EspFail && waited == RETRY_COUNT
      ensures clock == (if err == EspOk then luck.synced else old(clock))
    {
      var retry := 0;
      waited := 0;
      while true
        invariant 0 <= retry == waited < RETRY_COUNT && !AnyBefore(luck.waits, waited) && clock == old(clock)
        decreases RETRY_COUNT - retry
      {
        var synced := luck.waits(waited);
        waited := waited + 1;
        if synced {
          clock := luck.synced;
          break;
        }
        retry := retry + 1;
        if !(retry < RETRY_COUNT) {
          break;
        }
      }
      if retry == RETRY_COUNT {
        return EspFail, waited;
      }
      return EspOk, waited;
    }

    /** fetch_and_store_time_in_nvs.  On every path the handle it opens is closed and SNTP is stopped. */
    method FetchAndStore(luck: Luck) returns (err: Err)
      requires Valid() && !sntp
      modifies this
      ensures Valid() && !sntp && open == old(open)
      ensures (Snapshot(flash, clock), err) == Fetch(luck, Snapshot(old(flash), old(clock)))
    {
      var handle := 0;
      SntpInit();
      label exit: {
        var waited;
        err, waited := ObtainTime(luck);
        if err != EspOk {
          err := EspFail;
          break exit;
        }
        var now := clock;
        handle := NvsOpen(luck.open);
        err := if luck.open then EspOk else NvsError;
        if err != EspOk {
          break exit;
        }
        var before := flash;
        err := if luck.store then EspOk else NvsError;
        if err != EspOk {
          break exit;
        }
        err := if luck.commit then EspOk else NvsError;
        flash := if luck.commit || luck.keepsUncommitted then Some(now) else before;
      }
      if handle != 0 {
        NvsClose(handle);
      }
      SntpDeinit();
    }

    /** update_time_from_nvs.  It may fetch while its own handle is open; both are closed. */
    method Update(opens: bool, readable: bool, luck: Luck) returns (err: Err)
      requires Valid() && !sntp
      modifies this
      ensures Valid() && !sntp && open == old(open)
      ensures (Snapshot(flash, clock), err) == Updated(opens, readable, luck, Snapshot(old(flash), old(clock)))
    {
      var handle := NvsOpen(opens);
      err := if opens then EspOk else NvsError;
      label exit: {
        if err != EspOk {
          break exit;
        }
        var timestamp := 0;
        if !readable {
          err := NvsError;
        } else if flash == None {
          err := NvsNotFound;
        } else {
          timestamp := flash.value;
        }
        if err == NvsNotFound {
          var fetched := FetchAndStore(luck);
          err := if fetched != EspOk then EspFail else EspOk;
        } else if err == EspOk {
          clock := timestamp;
        }
      }
      if handle != 0 {
        NvsClose(handle);
      }
    }

    /** Power off and on: the clock starts anywhere. */
    method Reboot(clock: int)
      modifies this
      ensures Valid() && !sntp && open == {} && flash == old(flash) && this.clock == clock
    {
      this.clock, open, nextHandle, sntp := clock, {}, 1, false;
    }

    /** Any history of fetches, updates, reboots and waiting */
    method Live(acts: seq<Act>)
      requires Valid() && !sntp && open == {}
      modifies this
      ensures Valid() && !sntp && open == {}
      ensures Snapshot(flash, clock) == AfterAll(Snapshot(old(flash), old(clock)), acts)
    {
      var i := 0;
      while i < |acts|
        invariant 0 <= i <= |acts| && Valid() && !sntp && open == {}
        invariant AfterAll(Snapshot(flash, clock), acts[i..]) == AfterAll(Snapshot(old(flash), old(clock)), acts)
      {
        assert acts[i..][1..] == acts[i + 1..];
        match acts[i] {
          case DailyFetch(luck) => var _ := FetchAndStore(luck);
          case PowerOnUpdate(opens, readable, luck) => var _ := Update(opens, readable, luck);
          case Restart(now) => Reboot(now);
          case Tick(seconds) => clock := clock + seconds;
        }
        i := i + 1;
      }
    }
  }

  // ----- the stored time

  ghost function FetchWrites(luck: Luck): Option<int> {
    if AnyBefore(luck.waits, RETRY_COUNT) && luck.open && luck.store && (luck.commit || luck.keepsUncommitted)
    then Some(luck.synced) else None
  }

  /** The time that an act writes: a fetch that gets as far as setting the value writes it, unless the
      commit fails and the flash does not keep it; an update fetches only if no time is stored. */
  ghost function Writes(s: Snapshot, act: Act): Option<int> {
    match act
    case DailyFetch(luck) => FetchWrites(luck)
    case PowerOnUpdate(opens, readable, luck) =>
      if opens && readable && s.flash.None? then FetchWrites(luck) else None
    case _ => None
  }

  /** The last time written in a history. */
  ghost function LastWritten(s: Snapshot, acts: seq<Act>): Option<int>
    decreases |acts|
  {
    if acts == [] then None
    else
      var later := LastWritten(After(s, acts[0]), acts[1..]);
      if later.Some? then later else Writes(s, acts[0])
  }

  /** After any history the flash holds the last time written in it, or what it held before. */
  lemma {:induction false} FlashHoldsLastWritten(s: Snapshot, acts: seq<Act>)
    ensures var last := LastWritten(s, acts);
            AfterAll(s, acts).flash == if last.Some? then last else s.flash
    decreases |acts|
  {
    if acts != [] {
      var s1 := After(s, acts[0]);
      FlashHoldsLastWritten(s1, acts[1..]);
      assert s1.flash == if Writes(s, acts[0]).Some? then Writes(s, acts[0]) else s.flash;
    }
  }

  /** The round trip, exactly: after a successful fetch and any history, an update that succeeds sets the
      clock to the time that was fetched if and only if the last time written since is the same, or none
      was. */
  lemma RoundTripExactly(s: Snapshot, luck: Luck, acts: seq<Act>, opens: bool, readable: bool, ifMissing: Luck)
    requires Fetch(luck, s).1 == EspOk
    ensures var s1 := Fetch(luck, s).0;
            var (s2, err) := Updated(opens, readable, ifMissing, AfterAll(s1, acts));
            var last := LastWritten(s1, acts);
            && (err == EspOk <==> opens && readable)
            && (err == EspOk ==> (s2.clock == luck.synced <==> last == None || last == Some(luck.synced)))
  {
    FlashHoldsLastWritten(Fetch(luck, s).0, acts);
  }

  /** A fetch that gets as far as setting the value writes; nothing else does once a value is there. */
  ghost predicate MayWrite(act: Act) {
    act.DailyFetch? && AnyBefore(act.luck.waits, RETRY_COUNT) && act.luck.open && act.luck.store
  }

  lemma {:induction false} StoredTimeStays(s: Snapshot, acts: seq<Act>)
    requires s.flash.Some? && forall i :: 0 <= i < |acts| ==> !MayWrite(acts[i])
    ensures AfterAll(s, acts).flash == s.flash
    decreases |acts|
  {
    if acts != [] {
      assert After(s, acts[0]).flash == s.flash;
      StoredTimeStays(After(s, acts[0]), acts[1..]);
    }
  }

  /** The stored time round trip: after a successful fetch, and then any reboots, updates, failed fetches
      and waiting in which nothing is written, an update that succeeds sets the clock to the time that
      was fetched. */
  lemma StoredTimeRoundTrip(s: Snapshot, luck: Luck, acts: seq<Act>, opens: bool, readable: bool, ifMissing: Luck)
    requires Fetch(luck, s).1 == EspOk
    requires forall i :: 0 <= i < |acts| ==> !MayWrite(acts[i])
    ensures var s1 := AfterAll(Fetch(luck, s).0, acts);
            var (s2, err) := Updated(opens, readable, ifMissing, s1);
            && (err == EspOk <==> opens && readable)
            && (err == EspOk ==> s2.clock == luck.synced)
  {
    StoredTimeStays(Fetch(luck, s).0, acts);
  }
}
