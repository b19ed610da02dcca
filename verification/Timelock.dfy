/** The upgrade timelock: who may schedule, execute and cancel an upgrade, and when. */
module Timelock {
  import opened Balances
  import opened Results

  const MIN_UPGRADE_DELAY := 3_600
  const DEFAULT_UPGRADE_DELAY := 172_800
  const U64_MAX := 0xFFFF_FFFF_FFFF_FFFF

  type Hash = nat
  datatype Scheduled = Scheduled(hash: Hash, at: nat)

  /** The part of the vault's storage the timelock reads and writes. */
  datatype State = State(admin: Address, pendingAdmin: Option<Address>, delay: nat, scheduled: Option<Scheduled>)

  datatype Call =
    | ProposeAdmin(caller: Address, newAdmin: Address)
    | AcceptAdmin(caller: Address)
    | SetUpgradeDelay(caller: Address, delay: nat)
    | Schedule(caller: Address, hash: Hash)
    | Execute(caller: Address)
    | Cancel(caller: Address)

  /** The effect of a call at ledger time `now`.  Timestamps are 64-bit and additions
      that do not fit abort the call. */
  function Step(s: State, now: nat, call: Call): Result<State, VaultError> {
    match call
    case ProposeAdmin(caller, newAdmin) =>
      var _ :- Need(caller == s.admin, Unauthorized);
      Ok(s.(pendingAdmin := Some(newAdmin)))
    case AcceptAdmin(caller) =>
      var _ :- Need(s.pendingAdmin == Some(caller), NoPendingAdmin);
      Ok(s.(admin := caller, pendingAdmin := None))
    case SetUpgradeDelay(caller, delay) =>
      var _ :- Need(caller == s.admin, Unauthorized);
      var _ :- Need(delay >= MIN_UPGRADE_DELAY, InvalidBalance);
      Ok(s.(delay := delay))
    case Schedule(caller, hash) =>
      var _ :- Need(caller == s.admin, Unauthorized);
      var _ :- Need(now + s.delay <= U64_MAX, HostTrap);
      Ok(s.(scheduled := Some(Scheduled(hash, now))))
    case Execute(caller) =>
      var _ :- Need(caller == s.admin, Unauthorized);
      var _ :- Need(s.scheduled.Some?, UpgradeNotScheduled);
      var _ :- Need(s.scheduled.value.at + s.delay <= U64_MAX, HostTrap);
      var _ :- Need(now >= s.scheduled.value.at + s.delay, UpgradeTooEarly);
      Ok(s.(scheduled := None))
    case Cancel(caller) =>
      var _ :- Need(caller == s.admin, Unauthorized);
      var _ :- Need(s.scheduled.Some?, UpgradeNotScheduled);
      Ok(s.(scheduled := None))
  }

  // ------------------------------------------------------------------ the contract

  class UpgradeTimelock {
    var admin: Address
    var pendingAdmin: Option<Address>
    var delay: nat
    var scheduled: Option<Scheduled>

    ghost function Abs(): State
      reads this
    {
      State(admin, pendingAdmin, delay, scheduled)
    }

    /** The method's outcome is the one `Step` gives: its new state and no error, or its
        error and the old state. */
    ghost predicate Did(before: State, now: nat, call: Call, r: Result<(), VaultError>)
      reads this
    {
      match Step(before, now, call)
      case Ok(s) => r == Ok(()) && Abs() == s
      case Err(e) => r == Err(e) && Abs() == before
    }

    constructor (admin: Address)
      ensures Abs() == State(admin, None, DEFAULT_UPGRADE_DELAY, None)
    {
      this.admin, pendingAdmin, delay, scheduled := admin, None, DEFAULT_UPGRADE_DELAY, None;
    }

    method ProposeAdminCall(now: nat, caller: Address, newAdmin: Address) returns (r: Result<(), VaultError>)
      modifies this
      ensures Did(old(Abs()), now, ProposeAdmin(caller, newAdmin), r)
    {
      if caller != admin { return Err(Unauthorized); }
      pendingAdmin := Some(newAdmin);
      return Ok(());
    }

    method AcceptAdminCall(now: nat, caller: Address) returns (r: Result<(), VaultError>)
      modifies this
      ensures Did(old(Abs()), now, AcceptAdmin(caller), r)
    {
      if pendingAdmin != Some(caller) { return Err(NoPendingAdmin); }
      admin := caller;
      pendingAdmin := None;
      return Ok(());
    }

    method SetUpgradeDelayCall(now: nat, caller: Address, newDelay: nat) returns (r: Result<(), VaultError>)
      modifies this
      ensures Did(old(Abs()), now, SetUpgradeDelay(caller, newDelay), r)
    {
      if caller != admin { return Err(Unauthorized); }
      if newDelay < MIN_UPGRADE_DELAY { return Err(InvalidBalance); }
      delay := newDelay;
      return Ok(());
    }

    method ScheduleUpgrade(now: nat, caller: Address, hash: Hash) returns (r: Result<(), VaultError>)
      modifies this
      ensures Did(old(Abs()), now, Schedule(caller, hash), r)
    {
      if caller != admin { return Err(Unauthorized); }
      var executeAfter := now + delay;
      if executeAfter > U64_MAX { return Err(HostTrap); }
      scheduled := Some(Scheduled(hash, now));
      return Ok(());
    }

    method ExecuteUpgrade(now: nat, caller: Address) returns (r: Result<(), VaultError>)
      modifies this
      ensures Did(old(Abs()), now, Execute(caller), r)
    {
      if caller != admin { return Err(Unauthorized); }
      match scheduled {
        case None => return Err(UpgradeNotScheduled);
        case Some(s) =>
          var earliest := s.at + delay;
          if earliest > U64_MAX { return Err(HostTrap); }
          if now < earliest { return Err(UpgradeTooEarly); }
          scheduled := None;
          return Ok(());
      }
    }

    method CancelUpgrade(now: nat, caller: Address) returns (r: Result<(), VaultError>)
      modifies this
      ensures Did(old(Abs()), now, Cancel(caller), r)
    {
      if caller != admin { return Err(Unauthorized); }
      if scheduled.None? { return Err(UpgradeNotScheduled); }
      scheduled := None;
      return Ok(());
    }
  }

  // ------------------------------------------------------------------ whole runs

  datatype Entry = Entry(now: nat, call: Call)

  /** The state after the first `n` calls of a trace, refused calls changing nothing. */
  function StateAt(s: State, trace: seq<Entry>, n: nat): State
    requires n <= |trace|
  {
    if n == 0 then s else
    var before := StateAt(s, trace, n - 1);
    var r := Step(before, trace[n - 1].now, trace[n - 1].call);
    if r.Ok? then r.value else before
  }

  predicate Accepted(s: State, trace: seq<Entry>, i: nat)
    requires i < |trace|
  {
    Step(StateAt(s, trace, i), trace[i].now, trace[i].call).Ok?
  }

  predicate TouchesSchedule(call: Call) {
    call.Schedule? || call.Execute? || call.Cancel?
  }

  /** Call `i` scheduled `hash`, and no accepted call before `n` has replaced, executed
      or cancelled it since. */
  ghost predicate StandingSince(s: State, trace: seq<Entry>, i: nat, n: nat, hash: Hash) {
    && i < n <= |trace|
    && Accepted(s, trace, i) && trace[i].call.Schedule? && trace[i].call.hash == hash
    && forall k :: i < k < n && Accepted(s, trace, k) ==> !TouchesSchedule(trace[k].call)
  }

  /** Whatever is scheduled at any point was put there by a call that still stands, at
      the recorded time; and the delay is never below the minimum. */
  lemma {:induction false} ScheduleHasOrigin(s: State, trace: seq<Entry>, n: nat)
    requires n <= |trace| && s.scheduled == None && s.delay >= MIN_UPGRADE_DELAY
    ensures StateAt(s, trace, n).delay >= MIN_UPGRADE_DELAY
    ensures var p := StateAt(s, trace, n).scheduled;
            p.Some? ==> exists i: nat :: StandingSince(s, trace, i, n, p.value.hash) && trace[i].now == p.value.at
  {
    if n > 0 {
      ScheduleHasOrigin(s, trace, n - 1);
      var p := StateAt(s, trace, n).scheduled;
      if p.Some? {
        if Accepted(s, trace, n - 1) && trace[n - 1].call.Schedule? {
          assert StandingSince(s, trace, n - 1, n, p.value.hash);
        } else {
          ScheduleUntouched(s, trace, n);
          var i: nat :| StandingSince(s, trace, i, n - 1, p.value.hash) && trace[i].now == p.value.at;
          StandsOneMore(s, trace, i, n, p.value.hash);
        }
      }
    }
  }

  /** Something scheduled after a call that did not schedule it was there before, and the
      call was not one that touches schedules. */
  lemma ScheduleUntouched(s: State, trace: seq<Entry>, n: nat)
    requires 0 < n <= |trace| && StateAt(s, trace, n).scheduled.Some?
    requires !(Accepted(s, trace, n - 1) && trace[n - 1].call.Schedule?)
    ensures StateAt(s, trace, n - 1).scheduled == StateAt(s, trace, n).scheduled
    ensures Accepted(s, trace, n - 1) ==> !TouchesSchedule(trace[n - 1].call)
  {
  }

  lemma StandsOneMore(s: State, trace: seq<Entry>, i: nat, n: nat, hash: Hash)
    requires 0 < n <= |trace| && StandingSince(s, trace, i, n - 1, hash)
    requires Accepted(s, trace, n - 1) ==> !TouchesSchedule(trace[n - 1].call)
    ensures StandingSince(s, trace, i, n, hash)
  {
  }

  /** No upgrade without notice: an accepted execution was preceded, by at least the
      minimum delay, by an accepted schedule of the same code that nothing has touched in
      between -- whatever happened to the delay setting and the admin role meanwhile. */
  lemma UpgradeWasAnnounced(s: State, trace: seq<Entry>, j: nat)
    requires s.scheduled == None && s.delay >= MIN_UPGRADE_DELAY
    requires j < |trace| && trace[j].call.Execute? && Accepted(s, trace, j)
    ensures StateAt(s, trace, j).scheduled.Some?
    ensures exists i: nat ::
              StandingSince(s, trace, i, j, StateAt(s, trace, j).scheduled.value.hash)
              && trace[j].now >= trace[i].now + MIN_UPGRADE_DELAY
  {
    ScheduleHasOrigin(s, trace, j);
    var p := StateAt(s, trace, j).scheduled.value;
    var i: nat :| StandingSince(s, trace, i, j, p.hash) && trace[i].now == p.at;
  }

  /** One schedule pays for one execution: after an accepted execution another needs a
      new schedule. */
  lemma ExecutionConsumesSchedule(s: State, trace: seq<Entry>, j: nat, k: nat)
    requires s.scheduled == None && s.delay >= MIN_UPGRADE_DELAY && j < k < |trace|
    requires trace[j].call.Execute? && Accepted(s, trace, j) && trace[k].call.Execute? && Accepted(s, trace, k)
    ensures exists i: nat :: j < i < k && Accepted(s, trace, i) && trace[i].call.Schedule?
  {
    UpgradeWasAnnounced(s, trace, k);
    var i: nat :| StandingSince(s, trace, i, k, StateAt(s, trace, k).scheduled.value.hash);
    assert TouchesSchedule(trace[j].call);
  }

  // ------------------------------------------------------------------ the announced time

  /** A schedule that still stands is the one in storage, as recorded when it was made. */
  lemma {:induction false} StandingSchedule(s: State, trace: seq<Entry>, i: nat, n: nat, hash: Hash)
    requires StandingSince(s, trace, i, n, hash)
    ensures StateAt(s, trace, n).scheduled == Some(Scheduled(hash, trace[i].now))
    decreases n
  {
    if n > i + 1 {
      StandingSchedule(s, trace, i, n - 1, hash);
      assert Accepted(s, trace, n - 1) ==> !TouchesSchedule(trace[n - 1].call);
    }
  }

  /** No accepted call after `i` and before `n` has set the delay below `delay`. */
  ghost predicate DelayNotLowered(s: State, trace: seq<Entry>, i: nat, n: nat, delay: nat)
    requires n <= |trace|
  {
    forall k :: i < k < n && Accepted(s, trace, k) && trace[k].call.SetUpgradeDelay? ==> trace[k].call.delay >= delay
  }

  lemma {:induction false} DelayKept(s: State, trace: seq<Entry>, i: nat, n: nat)
    requires i < n <= |trace| && trace[i].call.Schedule?
    requires DelayNotLowered(s, trace, i, n, StateAt(s, trace, i).delay)
    ensures StateAt(s, trace, n).delay >= StateAt(s, trace, i).delay
    decreases n
  {
    if n > i + 1 {
      DelayKept(s, trace, i, n - 1);
      assert Accepted(s, trace, n - 1) && trace[n - 1].call.SetUpgradeDelay? ==>
          trace[n - 1].call.delay >= StateAt(s, trace, i).delay;
    }
  }

  /** The time announced with a schedule is respected by an execution of it, as long as the
      delay is never set below what it was when announced. */
  lemma AnnouncedTimeBinds(s: State, trace: seq<Entry>, i: nat, j: nat, hash: Hash)
    requires StandingSince(s, trace, i, j, hash) && j < |trace|
    requires DelayNotLowered(s, trace, i, j, StateAt(s, trace, i).delay)
    requires trace[j].call.Execute? && Accepted(s, trace, j)
    ensures trace[j].now >= trace[i].now + StateAt(s, trace, i).delay
  {
    StandingSchedule(s, trace, i, j, hash);
    DelayKept(s, trace, i, j);
  }

  /** Otherwise it need not be: at any point of a trace at which the schedule still stands,
      the announced time is respected by every execution that would be accepted exactly
      when the delay in force is no lower than the announced one. */
  lemma AnnouncedTimeBindsIff(s: State, trace: seq<Entry>, i: nat, n: nat, hash: Hash)
    requires StandingSince(s, trace, i, n, hash)
    ensures var at := StateAt(s, trace, n);
            (forall now: nat :: Step(at, now, Execute(at.admin)).Ok? ==>
               now >= trace[i].now + StateAt(s, trace, i).delay)
            <==> at.delay >= StateAt(s, trace, i).delay
  {
    StandingSchedule(s, trace, i, n, hash);
    var at := StateAt(s, trace, n);
    if at.delay < StateAt(s, trace, i).delay {
      assert Step(at, trace[i].now + at.delay, Execute(at.admin)).Ok?;
    }
  }

  /** Scheduled under the two-day default, executed one hour later. */
  lemma NoticeCanBeCutShort(admin: Address, hash: Hash)
    ensures var s := State(admin, None, DEFAULT_UPGRADE_DELAY, None);
            var trace := [Entry(0, Schedule(admin, hash)), Entry(0, SetUpgradeDelay(admin, MIN_UPGRADE_DELAY)),
                          Entry(MIN_UPGRADE_DELAY, Execute(admin))];
            StandingSince(s, trace, 0, 2, hash) && Accepted(s, trace, 1) && Accepted(s, trace, 2)
            && trace[2].now < trace[0].now + StateAt(s, trace, 0).delay
  {
  }

  // ------------------------------------------------------------------ what the history decides

  /** Call `i` proposed `newAdmin`, and no accepted call before `n` has replaced the proposal
      or been its acceptance since. */
  ghost predicate ProposedSince(s: State, trace: seq<Entry>, i: nat, n: nat, newAdmin: Address) {
    && i < n <= |trace|
    && Accepted(s, trace, i) && trace[i].call.ProposeAdmin? && trace[i].call.newAdmin == newAdmin
    && forall k :: i < k < n && Accepted(s, trace, k) ==> !trace[k].call.ProposeAdmin? && !trace[k].call.AcceptAdmin?
  }

  /** What the last of `n` calls, if accepted, has done to the roles and to the delay. */
  lemma OneCall(s: State, trace: seq<Entry>, n: nat)
    requires 0 < n <= |trace|
    ensures var before, after, call := StateAt(s, trace, n - 1), StateAt(s, trace, n), trace[n - 1].call;
            && (Accepted(s, trace, n - 1) && call.ProposeAdmin? ==>
                  after.pendingAdmin == Some(call.newAdmin) && call.caller == before.admin)
            && (Accepted(s, trace, n - 1) && call.AcceptAdmin? ==>
                  before.pendingAdmin == Some(call.caller) && after.admin == call.caller && after.pendingAdmin == None)
            && (!Accepted(s, trace, n - 1) || !call.AcceptAdmin? ==> after.admin == before.admin)
            && (!Accepted(s, trace, n - 1) || (!call.AcceptAdmin? && !call.ProposeAdmin?) ==>
                  after.pendingAdmin == before.pendingAdmin)
            && after.delay == if Accepted(s, trace, n - 1) && call.SetUpgradeDelay? then call.delay else before.delay
  {
  }

  lemma {:induction false} ProposalHasOrigin(s: State, trace: seq<Entry>, n: nat)
    requires n <= |trace| && s.pendingAdmin == None
    ensures var p := StateAt(s, trace, n).pendingAdmin;
            p.Some? ==> exists i: nat :: ProposedSince(s, trace, i, n, p.value)
  {
    var p := StateAt(s, trace, n).pendingAdmin;
    assert n == 0 ==> p == None;
    hide StateAt, Accepted;
    if n > 0 && p.Some? {
      OneCall(s, trace, n);
      ProposalHasOrigin(s, trace, n - 1);
      if Accepted(s, trace, n - 1) && trace[n - 1].call.ProposeAdmin? {
        assert ProposedSince(s, trace, n - 1, n, p.value);
      } else {
        var i: nat :| ProposedSince(s, trace, i, n - 1, p.value);
        assert ProposedSince(s, trace, i, n, p.value);
      }
    }
  }

  lemma {:induction false} StandingProposal(s: State, trace: seq<Entry>, i: nat, n: nat, newAdmin: Address)
    requires ProposedSince(s, trace, i, n, newAdmin)
    ensures StateAt(s, trace, n).pendingAdmin == Some(newAdmin)
    decreases n
  {
    hide StateAt, Accepted;
    OneCall(s, trace, n);
    if n > i + 1 {
      StandingProposal(s, trace, i, n - 1, newAdmin);
      assert Accepted(s, trace, n - 1) ==> !trace[n - 1].call.ProposeAdmin? && !trace[n - 1].call.AcceptAdmin?;
    }
  }

  /** Call `j` made `admin` the admin, by accepting a proposal of the admin of that time that
      still stood, and no accepted call before `n` has made anyone else the admin since. */
  ghost predicate TookOver(s: State, trace: seq<Entry>, j: nat, n: nat, admin: Address) {
    && j < n <= |trace| && Accepted(s, trace, j) && trace[j].call == AcceptAdmin(admin)
    && (exists i: nat :: ProposedSince(s, trace, i, j, admin) && trace[i].call.caller == StateAt(s, trace, i).admin)
    && forall k :: j < k < n && Accepted(s, trace, k) ==> !trace[k].call.AcceptAdmin?
  }

  ghost predicate HasTakenOver(s: State, trace: seq<Entry>, n: nat, admin: Address) {
    exists j: nat :: TookOver(s, trace, j, n, admin)
  }

  ghost predicate NoneTookOver(s: State, trace: seq<Entry>, n: nat)
    requires n <= |trace|
  {
    forall k :: 0 <= k < n && Accepted(s, trace, k) ==> !trace[k].call.AcceptAdmin?
  }

  /** The admin is whoever took over last, or if no one has, the admin from the start. */
  lemma {:induction false} AdminByConsent(s: State, trace: seq<Entry>, n: nat)
    requires n <= |trace| && s.pendingAdmin == None
    ensures HasTakenOver(s, trace, n, StateAt(s, trace, n).admin)
            || (StateAt(s, trace, n).admin == s.admin && NoneTookOver(s, trace, n))
  {
    assert n == 0 ==> StateAt(s, trace, n).admin == s.admin;
    hide StateAt, Accepted, HasTakenOver;
    if n > 0 {
      OneCall(s, trace, n);
      AdminByConsent(s, trace, n - 1);
      if Accepted(s, trace, n - 1) && trace[n - 1].call.AcceptAdmin? {
        JustTookOver(s, trace, n - 1);
      } else if HasTakenOver(s, trace, n - 1, StateAt(s, trace, n - 1).admin) {
        StillInOffice(s, trace, n, StateAt(s, trace, n - 1).admin);
      }
    }
  }

  lemma JustTookOver(s: State, trace: seq<Entry>, j: nat)
    requires j < |trace| && s.pendingAdmin == None && Accepted(s, trace, j) && trace[j].call.AcceptAdmin?
    ensures HasTakenOver(s, trace, j + 1, trace[j].call.caller)
  {
    hide StateAt, Accepted;
    OneCall(s, trace, j + 1);
    Consented(s, trace, j, trace[j].call.caller);
    assert TookOver(s, trace, j, j + 1, trace[j].call.caller);
  }

  lemma StillInOffice(s: State, trace: seq<Entry>, n: nat, admin: Address)
    requires 0 < n <= |trace| && HasTakenOver(s, trace, n - 1, admin)
    requires !Accepted(s, trace, n - 1) || !trace[n - 1].call.AcceptAdmin?
    ensures HasTakenOver(s, trace, n, admin)
  {
    hide StateAt, Accepted;
    var j: nat :| TookOver(s, trace, j, n - 1, admin);
    assert TookOver(s, trace, j, n, admin);
  }

  lemma Consented(s: State, trace: seq<Entry>, j: nat, admin: Address)
    requires j <= |trace| && s.pendingAdmin == None && StateAt(s, trace, j).pendingAdmin == Some(admin)
    ensures exists i: nat :: ProposedSince(s, trace, i, j, admin) && trace[i].call.caller == StateAt(s, trace, i).admin
  {
    hide StateAt, Accepted;
    ProposalHasOrigin(s, trace, j);
    var i: nat :| ProposedSince(s, trace, i, j, admin);
    OneCall(s, trace, i + 1);
  }

  /** Call `i` was the last accepted one before `n` to set the delay. */
  ghost predicate SetLast(s: State, trace: seq<Entry>, i: nat, n: nat) {
    && i < n <= |trace| && Accepted(s, trace, i) && trace[i].call.SetUpgradeDelay?
    && forall k :: i < k < n && Accepted(s, trace, k) ==> !trace[k].call.SetUpgradeDelay?
  }

  /** The delay in force is what it was last set to, or what it was from the start. */
  lemma {:induction false} DelayWasSet(s: State, trace: seq<Entry>, n: nat)
    requires n <= |trace|
    ensures (exists i: nat :: SetLast(s, trace, i, n) && StateAt(s, trace, n).delay == trace[i].call.delay)
            || (StateAt(s, trace, n).delay == s.delay
                && forall k :: 0 <= k < n && Accepted(s, trace, k) ==> !trace[k].call.SetUpgradeDelay?)
  {
    assert n == 0 ==> StateAt(s, trace, n) == s;
    hide StateAt, Accepted;
    if n > 0 {
      OneCall(s, trace, n);
      DelayWasSet(s, trace, n - 1);
      if Accepted(s, trace, n - 1) && trace[n - 1].call.SetUpgradeDelay? {
        assert SetLast(s, trace, n - 1, n);
      } else if i: nat :| SetLast(s, trace, i, n - 1) && StateAt(s, trace, n - 1).delay == trace[i].call.delay {
        assert SetLast(s, trace, i, n);
      }
    }
  }

  /** What it takes for call `j` of a trace to be accepted: the admin's word, a schedule or a
      proposal earlier in the trace that still stands, and times that fit 64 bits. */
  ghost predicate Due(s: State, trace: seq<Entry>, j: nat)
    requires j < |trace|
  {
    var admin, delay, now := StateAt(s, trace, j).admin, StateAt(s, trace, j).delay, trace[j].now;
    match trace[j].call
    case ProposeAdmin(caller, _) => caller == admin
    case AcceptAdmin(caller) => exists i: nat :: ProposedSince(s, trace, i, j, caller)
    case SetUpgradeDelay(caller, newDelay) => caller == admin && newDelay >= 60 * 60
    case Schedule(caller, _) => caller == admin && now + delay < 0x1_0000_0000_0000_0000
    case Execute(caller) =>
      caller == admin
      && exists i: nat, hash :: StandingSince(s, trace, i, j, hash)
                                && trace[i].now + delay <= now && trace[i].now + delay < 0x1_0000_0000_0000_0000
    case Cancel(caller) => caller == admin && exists i: nat, hash :: StandingSince(s, trace, i, j, hash)
  }

  /** Over any trace, a call is accepted exactly when it is due. */
  lemma AcceptedIffDue(s: State, trace: seq<Entry>, j: nat)
    requires j < |trace| && s.scheduled == None && s.pendingAdmin == None && s.delay >= MIN_UPGRADE_DELAY
    ensures Accepted(s, trace, j) <==> Due(s, trace, j)
  {
    match trace[j].call
    case AcceptAdmin(caller) =>
      ProposalHasOrigin(s, trace, j);
      forall i: nat | ProposedSince(s, trace, i, j, caller) ensures Accepted(s, trace, j) {
        StandingProposal(s, trace, i, j, caller);
      }
    case _ =>
      ScheduleHasOrigin(s, trace, j);
      forall i: nat, hash | StandingSince(s, trace, i, j, hash)
        ensures StateAt(s, trace, j).scheduled == Some(Scheduled(hash, trace[i].now))
      {
        StandingSchedule(s, trace, i, j, hash);
      }
  }
}
