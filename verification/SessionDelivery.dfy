/** The session delivery coordinator: one server-owned message at a time, each claim sent at most once. */
module SessionDelivery {
  datatype Option<+T> = None | Some(value: T)

  const SESSION_ENTRY_CONFIRMATION_MS := 10000

  /** A claim is an object: `identity` tells two claims of one delivery apart. */
  datatype Claim = Claim(identity: nat, deliveryId: string, expiresAt: int)

  datatype Queued = Queued(claim: Claim, queuedAt: int, ambiguityReported: bool)

  /** What Pi and the clock show at one moment: `visible` are the deliveries whose entry the branch has. */
  datatype World = World(now: int, idle: bool, pendingMessages: bool, visible: set<string>)

  /** The await at which a synchronization is suspended; `claimers` are still to be asked if the claim falls through. */
  datatype Suspension =
    | Resting
    | Settling(receipt: Queued)
    | Checking(claim: Claim, claimers: Option<nat>)
    | Claiming(left: nat)

  datatype Event =
    | Sent(claim: Claim, world: World)
    | SendThrew(claim: Claim)
    | Settled(deliveryId: string)
    | Notified(identity: nat)
    | Cleared

  // ---- The log -------------------------------------------------------------------------------

  predicate Free(w: World) { w.idle && !w.pendingMessages }

  /** The claim that was sent and has not been settled, taken back or cleared since. */
  function Outstanding(log: seq<Event>): Option<Claim> {
    if log == [] then None else OutstandingNext(Outstanding(log[..|log| - 1]), log[|log| - 1])
  }

  function OutstandingNext(before: Option<Claim>, e: Event): Option<Claim> {
    match e
    case Sent(claim, _) => Some(claim)
    case SendThrew(_) => None
    case Settled(id) => if before.Some? && before.value.deliveryId == id then None else before
    case Notified(_) => before
    case Cleared => None
  }

  /** A message is sent while Pi is free, on a live claim, that was not sent before, and with none outstanding. */
  ghost predicate GoodSend(log: seq<Event>, i: nat)
    requires i < |log| && log[i].Sent?
  {
    && Free(log[i].world) && log[i].world.now < log[i].claim.expiresAt
    && Outstanding(log[..i]).None?
    && forall j :: 0 <= j < i && log[j].Sent? ==> log[j].claim.identity != log[i].claim.identity
  }

  ghost predicate GoodLog(log: seq<Event>) {
    && (forall i :: 0 <= i < |log| && log[i].Sent? ==> GoodSend(log, i))
    && (forall i, j :: 0 <= i < j < |log| && log[i].Notified? && log[j].Notified? ==>
        log[i].identity != log[j].identity)
  }

  ghost predicate Unsent(log: seq<Event>, identity: nat) {
    forall i :: 0 <= i < |log| && log[i].Sent? ==> log[i].claim.identity != identity
  }

  ghost predicate Unnotified(log: seq<Event>, identity: nat) {
    forall i :: 0 <= i < |log| && log[i].Notified? ==> log[i].identity != identity
  }

  /** Every claim on record was made by now. */
  ghost predicate Below(log: seq<Event>, claims: nat) {
    && (forall i :: 0 <= i < |log| && log[i].Sent? ==> log[i].claim.identity < claims)
    && (forall i :: 0 <= i < |log| && log[i].Notified? ==> log[i].identity < claims)
  }

  /** What may be appended to a good log. */
  ghost predicate Fits(log: seq<Event>, e: Event, claims: nat) {
    && (e.Sent? ==>
          && Free(e.world) && e.world.now < e.claim.expiresAt && Outstanding(log).None?
          && Unsent(log, e.claim.identity) && e.claim.identity < claims)
    && (e.Notified? ==> Unnotified(log, e.identity) && e.identity < claims)
  }

  lemma Appended(log: seq<Event>, e: Event, claims: nat)
    requires GoodLog(log) && Below(log, claims) && Fits(log, e, claims)
    ensures GoodLog(log + [e]) && Below(log + [e], claims)
    ensures Outstanding(log + [e]) == OutstandingNext(Outstanding(log), e)
    ensures forall id :: Unsent(log, id) && (e.Sent? ==> e.claim.identity != id) ==> Unsent(log + [e], id)
    ensures forall id :: Unnotified(log, id) && (e.Notified? ==> e.identity != id) ==> Unnotified(log + [e], id)
  {
    var after := log + [e];
    assert after[..|log|] == log;
    assert Outstanding(after) == OutstandingNext(Outstanding(log), e);
    hide Outstanding, OutstandingNext;
    forall i | 0 <= i < |after| && after[i].Sent? ensures GoodSend(after, i) { SendStaysGood(log, e, i); }
  }

  lemma SendStaysGood(log: seq<Event>, e: Event, i: nat)
    requires i <= |log| && (log + [e])[i].Sent? && GoodLog(log)
    requires i == |log| ==>
        Free(e.world) && e.world.now < e.claim.expiresAt && Outstanding(log).None?
        && Unsent(log, e.claim.identity)
    ensures GoodSend(log + [e], i)
  {
    hide Outstanding;
    assert (log + [e])[..i] == log[..i];
    if i < |log| { assert GoodSend(log, i); } else { assert log[..i] == log; }
  }

  // ---- What every step keeps -----------------------------------------------------------------

  datatype State = State(queued: seq<Queued>, claimed: Option<Claim>, at: Suspension, claims: nat, log: seq<Event>)

  /** A claim that may still be sent: made by now, and neither sent nor reported. */
  ghost predicate Sendable(s: State, c: Claim) {
    c.identity < s.claims && Unsent(s.log, c.identity) && Unnotified(s.log, c.identity)
  }

  /** A claim that has been sent, or shown in the branch: it may be reported once. */
  ghost predicate Reportable(s: State, q: Queued) {
    q.claim.identity < s.claims && (!q.ambiguityReported ==> Unnotified(s.log, q.claim.identity))
  }

  ghost predicate Inv(s: State) {
    && GoodLog(s.log) && Below(s.log, s.claims)
    && |s.queued| + (if s.claimed.Some? then 1 else 0) <= 1
    && (s.claimed.Some? ==> Sendable(s, s.claimed.value))
    && (s.at.Checking? ==>
          Sendable(s, s.at.claim) && s.queued == [] && (s.claimed.None? || s.claimed == Some(s.at.claim)))
    && (s.at.Claiming? ==> s.queued == [] && s.claimed.None?)
    && (s.at.Settling? ==>
          s.claimed.None? && (s.queued == [] || s.queued == [s.at.receipt]) && Reportable(s, s.at.receipt))
    && (|s.queued| == 1 ==> Reportable(s, s.queued[0]))
    && (Outstanding(s.log).Some? ==> |s.queued| == 1 && s.queued[0].claim == Outstanding(s.log).value)
  }

  const EMPTY := State([], None, Resting, 0, [])

  lemma EmptyKeeps()
    ensures Inv(EMPTY)
  {
  }

  // ---- Steps ---------------------------------------------------------------------------------

  function Remember(s: State, c: Claim, now: int): State {
    s.(queued := s.queued + [Queued(c, now, false)], claimed := None)
  }

  /** Ask the claimers that are left, if Pi is free. */
  function Ask(s: State, claimers: Option<nat>, w: World): State {
    if claimers.Some? && claimers.value > 0 && Free(w) then s.(at := Claiming(claimers.value)) else s.(at := Resting)
  }

  /** The claim at hand, up to the await that asks whether it can still be delivered. */
  function BeginSend(s: State, claimers: Option<nat>, w: World): State {
    if s.claimed.None? then Ask(s, claimers, w)
    else if s.claimed.value.expiresAt <= w.now then Ask(s.(claimed := None), claimers, w)
    else if s.claimed.value.deliveryId in w.visible then
      Remember(s, s.claimed.value, w.now).(at := Settling(Queued(s.claimed.value, w.now, false)))
    else if !Free(w) then s.(at := Resting)
    else s.(at := Checking(s.claimed.value, claimers))
  }

  function Notify(s: State, w: World): State
    requires |s.queued| == 1
  {
    var q := s.queued[0];
    if !q.ambiguityReported && Free(w) && w.now - q.queuedAt >= SESSION_ENTRY_CONFIRMATION_MS then
      s.(queued := [q.(ambiguityReported := true)], log := s.log + [Notified(q.claim.identity)])
    else s
  }

  /** A synchronization up to its first await: the queued delivery first, then the claim at hand, then a new claim. */
  function Begin(s: State, claimers: nat, w: World): State
    requires |s.queued| <= 1
  {
    if !s.at.Resting? then s
    else if s.queued != [] then
      if s.queued[0].claim.deliveryId in w.visible then s.(at := Settling(s.queued[0])) else Notify(s, w)
    else BeginSend(s, Some(claimers), w)
  }

  /** The receipt was stored, or storing it failed; a clear in between has already emptied the queue. */
  function AfterSettle(s: State, ok: bool): State
    requires s.at.Settling?
  {
    var q := s.at.receipt;
    if ok then s.(queued := [], log := s.log + [Settled(q.claim.deliveryId)], at := Resting)
    else if q.ambiguityReported then s.(at := Resting)
    else s.(queued := if s.queued == [] then [] else [q.(ambiguityReported := true)],
            log := s.log + [Notified(q.claim.identity)], at := Resting)
  }

  /** The deliverability check answered; with all else in order the message is sent, once. */
  function AfterCheck(s: State, deliverable: bool, throws: bool, w: World, inserted: bool): State
    requires s.at.Checking?
  {
    var claim := s.at.claim;
    if !deliverable || claim.expiresAt <= w.now then Ask(s.(claimed := None), s.at.claimers, w)
    else if !Free(w) then s.(at := Resting)
    else if throws then s.(claimed := None, log := s.log + [Sent(claim, w), SendThrew(claim)], at := Resting)
    else
      Remember(s.(log := s.log + [Sent(claim, w)]), claim, w.now).(
        at := if inserted then Settling(Queued(claim, w.now, false)) else Resting)
  }

  /** A claimer answered. */
  function AfterClaim(s: State, answer: Option<(string, int)>, w: World): State
    requires s.at.Claiming?
  {
    if answer.None? then s.(at := if s.at.left > 1 then Claiming(s.at.left - 1) else Resting)
    else
      var claim := Claim(s.claims, answer.value.0, answer.value.1);
      var made := s.(claims := s.claims + 1);
      if claim.deliveryId in w.visible then
        if claim.expiresAt <= w.now then made.(at := Resting)
        else Remember(made, claim, w.now).(at := Settling(Queued(claim, w.now, false)))
      else BeginSend(made.(claimed := Some(claim)), None, w)
  }

  function Clear(s: State): State { s.(queued := [], claimed := None, log := s.log + [Cleared]) }

  // ---- Proofs --------------------------------------------------------------------------------

  lemma BeginSendKeeps(s: State, claimers: Option<nat>, w: World)
    requires Inv(s.(at := Resting)) && s.queued == []
    ensures Inv(BeginSend(s, claimers, w))
  {
    hide GoodLog, Below, Outstanding, Unsent, Unnotified;
  }

  lemma BeginKeeps(s: State, claimers: nat, w: World)
    requires Inv(s)
    ensures Inv(Begin(s, claimers, w))
  {
    hide GoodLog, Below, Outstanding, Unsent, Unnotified;
    if s.at.Resting? {
      assert s.(at := Resting) == s;
      if s.queued != [] {
        if Notify(s, w) != s { Appended(s.log, Notified(s.queued[0].claim.identity), s.claims); }
      } else {
        BeginSendKeeps(s, Some(claimers), w);
      }
    }
  }

  lemma AfterSettleKeeps(s: State, ok: bool)
    requires Inv(s) && s.at.Settling?
    ensures Inv(AfterSettle(s, ok))
  {
    hide GoodLog, Below, Outstanding, Unsent, Unnotified;
    var q := s.at.receipt;
    if ok {
      Appended(s.log, Settled(q.claim.deliveryId), s.claims);
    } else if !q.ambiguityReported {
      Appended(s.log, Notified(q.claim.identity), s.claims);
    }
  }

  /** Sending a claim: it is queued, and it is what is outstanding. */
  lemma SendKeeps(s: State, w: World, at: Suspension)
    requires Inv(s) && s.at.Checking? && s.at.claim.expiresAt > w.now && Free(w)
    requires at == Resting || at == Settling(Queued(s.at.claim, w.now, false))
    ensures Inv(Remember(s.(log := s.log + [Sent(s.at.claim, w)]), s.at.claim, w.now).(at := at))
  {
    hide GoodLog, Below, Outstanding, Unsent, Unnotified;
    Appended(s.log, Sent(s.at.claim, w), s.claims);
  }

  /** A send that throws takes the claim back; it is not kept for another try. */
  lemma ThrowKeeps(s: State, w: World)
    requires Inv(s) && s.at.Checking? && s.at.claim.expiresAt > w.now && Free(w)
    ensures Inv(s.(claimed := None, log := s.log + [Sent(s.at.claim, w), SendThrew(s.at.claim)], at := Resting))
  {
    hide GoodLog, Below, Outstanding, Unsent, Unnotified;
    var sent := s.log + [Sent(s.at.claim, w)];
    Appended(s.log, Sent(s.at.claim, w), s.claims);
    Appended(sent, SendThrew(s.at.claim), s.claims);
    assert sent + [SendThrew(s.at.claim)] == s.log + [Sent(s.at.claim, w), SendThrew(s.at.claim)];
  }

  lemma AfterCheckKeeps(s: State, deliverable: bool, throws: bool, w: World, inserted: bool)
    requires Inv(s) && s.at.Checking?
    ensures Inv(AfterCheck(s, deliverable, throws, w, inserted))
  {
    var claim := s.at.claim;
    if deliverable && claim.expiresAt > w.now && Free(w) {
      if throws {
        ThrowKeeps(s, w);
      } else {
        SendKeeps(s, w, if inserted then Settling(Queued(claim, w.now, false)) else Resting);
      }
    }
    hide GoodLog, Below, Outstanding, Unsent, Unnotified;
  }

  /** A claim that the server makes is new. */
  lemma NewClaim(s: State, claim: Claim)
    requires Inv(s) && s.at.Claiming? && claim.identity == s.claims
    ensures Inv(s.(claims := s.claims + 1, claimed := Some(claim), at := Resting))
    ensures Inv(s.(claims := s.claims + 1, at := Resting)) && Unnotified(s.log, claim.identity)
  {
    hide GoodLog, Outstanding;
  }

  lemma AfterClaimKeeps(s: State, answer: Option<(string, int)>, w: World)
    requires Inv(s) && s.at.Claiming?
    ensures Inv(AfterClaim(s, answer, w))
  {
    hide GoodLog, Below, Outstanding, Unsent, Unnotified;
    if answer.Some? {
      var claim := Claim(s.claims, answer.value.0, answer.value.1);
      var made := s.(claims := s.claims + 1);
      NewClaim(s, claim);
      if claim.deliveryId !in w.visible { BeginSendKeeps(made.(claimed := Some(claim)), None, w); }
    }
  }

  lemma ClearKeeps(s: State)
    requires Inv(s)
    ensures Inv(Clear(s))
  {
    hide GoodLog, Below, Outstanding, Unsent, Unnotified;
    Appended(s.log, Cleared, s.claims);
  }

  // ---- The coordinator -----------------------------------------------------------------------

  class SessionDeliveryCoordinator {
    var queued: seq<Queued>
    var claimed: Option<Claim>
    var synchronizing: Suspension
    var claims: nat
    var log: seq<Event>

    function View(): State
      reads this
    {
      State(queued, claimed, synchronizing, claims, log)
    }

    constructor ()
      ensures View() == EMPTY && Inv(View())
    {
      queued, claimed, synchronizing, claims, log := [], None, Resting, 0, [];
      new;
      EmptyKeeps();
    }

    method RememberQueued(c: Claim, now: int)
      modifies this`queued, this`claimed
      ensures View() == Remember(old(View()), c, now)
    {
      queued, claimed := queued + [Queued(c, now, false)], None;
    }

    /** The rest of a synchronization when no claim was at hand. */
    method AskClaimers(claimers: Option<nat>, w: World)
      modifies this`synchronizing
      ensures View() == Ask(old(View()), claimers, w)
    {
      synchronizing := Resting;
      if claimers.Some? && claimers.value > 0 && Free(w) { synchronizing := Claiming(claimers.value); }
    }

    /** Send the claim at hand, up to the first await. */
    method SendClaimed(claimers: Option<nat>, w: World)
      modifies this`queued, this`claimed, this`synchronizing
      ensures View() == BeginSend(old(View()), claimers, w)
    {
      if claimed.None? {
        AskClaimers(claimers, w);
        return;
      }
      var delivery := claimed.value;
      if delivery.expiresAt <= w.now {
        claimed := None;
        AskClaimers(claimers, w);
      } else if delivery.deliveryId in w.visible {
        RememberQueued(delivery, w.now);
        synchronizing := Settling(Queued(delivery, w.now, false));
      } else if !w.idle || w.pendingMessages {
        synchronizing := Resting;
      } else {
        synchronizing := Checking(delivery, claimers);
      }
    }

    /**
     * A synchronization up to its first await. At most one delivery is ever queued, so the source's loop takes one
     * turn.
     */
    method Synchronize(claimers: nat, w: World)
      requires Inv(View())
      modifies this
      ensures Inv(View()) && View() == Begin(old(View()), claimers, w)
    {
      hide Inv;
      BeginKeeps(View(), claimers, w);
      if !synchronizing.Resting? { return; }
      if |queued| == 0 {
        SendClaimed(Some(claimers), w);
        return;
      }
      var q := queued[0];
      if q.claim.deliveryId in w.visible {
        synchronizing := Settling(q);
      } else if !q.ambiguityReported && w.idle && !w.pendingMessages
        && w.now - q.queuedAt >= SESSION_ENTRY_CONFIRMATION_MS {
        queued, log := [q.(ambiguityReported := true)], log + [Notified(q.claim.identity)];
      }
    }

    method ResumeSettled(ok: bool)
      requires Inv(View()) && synchronizing.Settling?
      modifies this
      ensures Inv(View()) && View() == AfterSettle(old(View()), ok)
    {
      hide Inv;
      AfterSettleKeeps(View(), ok);
      var q := synchronizing.receipt;
      if ok {
        queued, log := [], log + [Settled(q.claim.deliveryId)];
      } else if !q.ambiguityReported {
        if queued != [] { queued := [q.(ambiguityReported := true)]; }
        log := log + [Notified(q.claim.identity)];
      }
      synchronizing := Resting;
    }

    method ResumeChecked(deliverable: bool, throws: bool, w: World, inserted: bool)
      requires Inv(View()) && synchronizing.Checking?
      modifies this
      ensures Inv(View()) && View() == AfterCheck(old(View()), deliverable, throws, w, inserted)
    {
      hide Inv;
      CheckingQueuesNothing(View());
      AfterCheckKeeps(View(), deliverable, throws, w, inserted);
      var delivery, claimers := synchronizing.claim, synchronizing.claimers;
      if !deliverable || delivery.expiresAt <= w.now {
        claimed := None;
        AskClaimers(claimers, w);
      } else if !w.idle || w.pendingMessages {
        synchronizing := Resting;
      } else {
        RememberQueued(delivery, w.now);
        log := log + [Sent(delivery, w)];
        synchronizing := Resting;
        if throws {
          queued, log := [], log + [SendThrew(delivery)];
          assert old(log) + [Sent(delivery, w)] + [SendThrew(delivery)]
              == old(log) + [Sent(delivery, w), SendThrew(delivery)];
        } else if inserted {
          synchronizing := Settling(Queued(delivery, w.now, false));
        }
      }
    }

    method ResumeClaimed(answer: Option<(string, int)>, w: World)
      requires Inv(View()) && synchronizing.Claiming?
      modifies this
      ensures Inv(View()) && View() == AfterClaim(old(View()), answer, w)
    {
      hide Inv;
      AfterClaimKeeps(View(), answer, w);
      if answer.None? {
        synchronizing := if synchronizing.left > 1 then Claiming(synchronizing.left - 1) else Resting;
        return;
      }
      var delivery := Claim(claims, answer.value.0, answer.value.1);
      claims := claims + 1;
      if delivery.deliveryId in w.visible {
        synchronizing := Resting;
        if delivery.expiresAt > w.now {
          RememberQueued(delivery, w.now);
          synchronizing := Settling(Queued(delivery, w.now, false));
        }
      } else {
        claimed := Some(delivery);
        SendClaimed(None, w);
      }
    }

    method ClearAll()
      requires Inv(View())
      modifies this
      ensures Inv(View()) && View() == Clear(old(View()))
    {
      hide Inv;
      ClearKeeps(View());
      queued, claimed, log := [], None, log + [Cleared];
    }
  }

  lemma CheckingQueuesNothing(s: State)
    requires Inv(s) && s.at.Checking?
    ensures s.queued == []
  {
  }

  // ---- Every run -----------------------------------------------------------------------------

  datatype Action =
    | Polls(claimers: nat, world: World)
    | SettleAnswers(ok: bool)
    | CheckAnswers(deliverable: bool, throws: bool, world: World, inserted: bool)
    | ClaimAnswers(answer: Option<(string, int)>, world: World)
    | Clears

  /** An answer that nothing waits for changes nothing. */
  function Step(s: State, action: Action): State
    requires |s.queued| <= 1
  {
    match action
    case Polls(claimers, world) => Begin(s, claimers, world)
    case SettleAnswers(ok) => if s.at.Settling? then AfterSettle(s, ok) else s
    case CheckAnswers(deliverable, throws, world, inserted) =>
      if s.at.Checking? then AfterCheck(s, deliverable, throws, world, inserted) else s
    case ClaimAnswers(answer, world) => if s.at.Claiming? then AfterClaim(s, answer, world) else s
    case Clears => Clear(s)
  }

  lemma StepKeeps(s: State, action: Action)
    requires Inv(s)
    ensures |s.queued| <= 1 && Inv(Step(s, action))
  {
    hide GoodLog, Outstanding, Sendable;
    match action
    case Polls(claimers, world) => BeginKeeps(s, claimers, world);
    case SettleAnswers(ok) => if s.at.Settling? { AfterSettleKeeps(s, ok); }
    case CheckAnswers(deliverable, throws, world, inserted) =>
      if s.at.Checking? { AfterCheckKeeps(s, deliverable, throws, world, inserted); }
    case ClaimAnswers(answer, world) => if s.at.Claiming? { AfterClaimKeeps(s, answer, world); }
    case Clears => ClearKeeps(s);
  }

  /** The state after a schedule. */
  ghost function After(actions: seq<Action>): (s: State)
    ensures Inv(s)
  {
    if actions == [] then
      EmptyKeeps();
      EMPTY
    else
      var before := After(actions[..|actions| - 1]);
      StepKeeps(before, actions[|actions| - 1]);
      Step(before, actions[|actions| - 1])
  }

  lemma NothingHappened()
    ensures After([]) == EMPTY
  {
  }

  lemma Unfolds(actions: seq<Action>, action: Action)
    ensures |After(actions).queued| <= 1 && After(actions + [action]) == Step(After(actions), action)
  {
    assert (actions + [action])[..|actions|] == actions;
    hide Step;
  }

  /**
   * Whatever Pi, the clock and the server do, and wherever polls and clears fall between the awaits: each claim is sent
   * at most once, live, while Pi is free, and only with no other message outstanding; each is reported at most once.
   */
  method Run(actions: seq<Action>) returns (log: seq<Event>, outstanding: nat)
    ensures log == After(actions).log && GoodLog(log)
    ensures outstanding == |After(actions).queued| + if After(actions).claimed.Some? then 1 else 0
    ensures outstanding <= 1 && (Outstanding(log).Some? ==> outstanding == 1)
  {
    hide Inv, GoodLog, After, Step;
    var coordinator := new SessionDeliveryCoordinator();
    NothingHappened();
    for i := 0 to |actions|
      invariant fresh(coordinator) && Inv(coordinator.View()) && coordinator.View() == After(actions[..i])
    {
      assert actions[..i + 1] == actions[..i] + [actions[i]];
      Unfolds(actions[..i], actions[i]);
      Act(coordinator, actions[i]);
    }
    assert actions[..|actions|] == actions;
    log := coordinator.log;
    outstanding := |coordinator.queued| + if coordinator.claimed.Some? then 1 else 0;
    AtMostOne(coordinator.View());
  }

  method Act(coordinator: SessionDeliveryCoordinator, action: Action)
    requires Inv(coordinator.View()) && |coordinator.queued| <= 1
    modifies coordinator
    ensures Inv(coordinator.View()) && coordinator.View() == Step(old(coordinator.View()), action)
  {
    hide Inv, Begin, AfterSettle, AfterCheck, AfterClaim, Clear;
    match action
    case Polls(claimers, world) => coordinator.Synchronize(claimers, world);
    case SettleAnswers(ok) => if coordinator.synchronizing.Settling? { coordinator.ResumeSettled(ok); }
    case CheckAnswers(deliverable, throws, world, inserted) =>
      if coordinator.synchronizing.Checking? { coordinator.ResumeChecked(deliverable, throws, world, inserted); }
    case ClaimAnswers(answer, world) =>
      if coordinator.synchronizing.Claiming? { coordinator.ResumeClaimed(answer, world); }
    case Clears => coordinator.ClearAll();
  }

  // ---- Where a message comes from ------------------------------------------------------------

  /** The server answered a request for a claim with this one. */
  ghost predicate Granted(actions: seq<Action>, c: Claim) {
    exists j :: 0 <= j < |actions| && GrantedAt(actions, j, c)
  }

  ghost predicate GrantedAt(actions: seq<Action>, j: nat, c: Claim)
    requires j < |actions|
  {
    Grants(After(actions[..j]), actions[j], c)
  }

  /** Message i was sent when the server called its claim deliverable, into the world there was then. */
  ghost predicate SentBy(actions: seq<Action>, k: nat, i: nat)
    requires k < |actions| && i < |After(actions).log| && After(actions).log[i].Sent?
  {
    var e, before := After(actions).log[i], After(actions[..k]);
    SendsOn(before, actions[k], e) && |before.log| == i && Granted(actions[..k], e.claim)
  }

  lemma GrantedStays(actions: seq<Action>, action: Action, c: Claim)
    requires Granted(actions, c)
    ensures Granted(actions + [action], c)
  {
    var j :| 0 <= j < |actions| && GrantedAt(actions, j, c);
    assert (actions + [action])[..j] == actions[..j];
    hide After;
    assert GrantedAt(actions + [action], j, c);
  }

  /** The answer that the claim at hand can be delivered sends it. */
  ghost predicate SendsOn(s: State, action: Action, e: Event) {
    && action.CheckAnswers? && action.deliverable && s.at.Checking? && e == Sent(s.at.claim, action.world)
  }

  /** The server answers with this claim. */
  ghost predicate Grants(s: State, action: Action, c: Claim) {
    && action.ClaimAnswers? && s.at.Claiming? && c.identity == s.claims
    && action.answer == Some((c.deliveryId, c.expiresAt))
  }

  /** A step appends at most its own events, and holds on to no claim but those it had and the one it is given. */
  lemma StepGrows(s: State, action: Action)
    requires Inv(s) && |s.queued| <= 1
    ensures var t := Step(s, action);
            && s.log <= t.log
            && (forall i :: |s.log| <= i < |t.log| && t.log[i].Sent? ==> i == |s.log| && SendsOn(s, action, t.log[i]))
            && (forall c :: Holds(t, c) ==> Holds(s, c) || Grants(s, action, c))
  {
    hide Inv;
  }

  /** The claims that may still be sent. */
  ghost predicate Holds(s: State, c: Claim) { s.claimed == Some(c) || (s.at.Checking? && s.at.claim == c) }

  lemma {:induction false} HeldIsGranted(actions: seq<Action>)
    ensures forall c :: Holds(After(actions), c) ==> Granted(actions, c)
  {
    if actions != [] {
      var before, last := actions[..|actions| - 1], actions[|actions| - 1];
      assert actions == before + [last];
      HeldIsGranted(before);
      Unfolds(before, last);
      StepGrows(After(before), last);
      hide After, Step, Granted;
      forall c | Holds(After(actions), c) ensures Granted(actions, c) {
        if Holds(After(before), c) {
          GrantedStays(before, last, c);
        } else {
          GrantedNow(before, last, c);
        }
      }
    }
  }

  lemma GrantedNow(actions: seq<Action>, action: Action, c: Claim)
    requires Grants(After(actions), action, c)
    ensures Granted(actions + [action], c)
  {
    assert (actions + [action])[..|actions|] == actions;
    hide After;
    assert GrantedAt(actions + [action], |actions|, c);
  }

  lemma SentStays(actions: seq<Action>, action: Action, k: nat, i: nat)
    requires k < |actions| && i < |After(actions).log| && After(actions).log[i].Sent? && SentBy(actions, k, i)
    requires After(actions).log <= After(actions + [action]).log
    ensures SentBy(actions + [action], k, i)
  {
    hide After, Granted;
    assert (actions + [action])[..k] == actions[..k];
  }

  lemma SentNow(actions: seq<Action>, action: Action, i: nat)
    requires i < |After(actions + [action]).log| && After(actions + [action]).log[i].Sent?
        && SentHere(actions, action, i)
    ensures SentBy(actions + [action], |actions|, i)
  {
    hide After, Granted;
    assert (actions + [action])[..|actions|] == actions;
  }

  /** One more action appends to the log; what it sends is a claim at hand, which the server gave. */
  lemma AfterGrows(actions: seq<Action>, action: Action)
    ensures After(actions).log <= After(actions + [action]).log
    ensures var log := After(actions + [action]).log;
            forall i :: |After(actions).log| <= i < |log| && log[i].Sent? ==> SentHere(actions, action, i)
  {
    Unfolds(actions, action);
    StepGrows(After(actions), action);
    HeldIsGranted(actions);
    hide Step, Granted, After, Inv;
    if action.CheckAnswers? && After(actions).at.Checking? { assert Holds(After(actions), After(actions).at.claim); }
  }

  /** Message i is the one this action sends. */
  ghost predicate SentHere(actions: seq<Action>, action: Action, i: nat)
    requires i < |After(actions + [action]).log|
  {
    && i == |After(actions).log| && SendsOn(After(actions), action, After(actions + [action]).log[i])
    && Granted(actions, After(actions).at.claim)
  }

  /** Message i goes back to an answer. */
  ghost predicate Answered(actions: seq<Action>, i: nat)
    requires i < |After(actions).log| && After(actions).log[i].Sent?
  {
    exists k :: 0 <= k < |actions| && SentBy(actions, k, i)
  }

  lemma AnsweredStays(actions: seq<Action>, action: Action, i: nat)
    requires i < |After(actions).log| && After(actions).log[i].Sent? && Answered(actions, i)
    ensures i < |After(actions + [action]).log| && After(actions + [action]).log[i].Sent?
        && Answered(actions + [action], i)
  {
    AfterGrows(actions, action);
    hide After, SentBy, SentHere;
    var k :| 0 <= k < |actions| && SentBy(actions, k, i);
    SentStays(actions, action, k, i);
  }

  lemma AnsweredNow(actions: seq<Action>, action: Action, i: nat)
    requires |After(actions).log| <= i < |After(actions + [action]).log| && After(actions + [action]).log[i].Sent?
    ensures Answered(actions + [action], i)
  {
    AfterGrows(actions, action);
    hide After, SentBy, SentHere;
    SentNow(actions, action, i);
  }

  lemma StillSent(actions: seq<Action>, action: Action, i: nat)
    requires i < |After(actions).log| && i < |After(actions + [action]).log| && After(actions + [action]).log[i].Sent?
    ensures After(actions).log[i].Sent?
  {
    AfterGrows(actions, action);
    hide After, SentHere;
  }

  /**
   * Every message sent goes back to one answer that its claim can be delivered, and that claim to one the server gave.
   */
  lemma {:induction false} SentOnAnswers(actions: seq<Action>, i: nat)
    requires i < |After(actions).log| && After(actions).log[i].Sent?
    ensures Answered(actions, i)
    decreases |actions|
  {
    if actions == [] {
      NothingHappened();
    } else {
      hide After, Answered;
      var before, last := actions[..|actions| - 1], actions[|actions| - 1];
      assert actions == before + [last];
      if i < |After(before).log| {
        StillSent(before, last, i);
        SentOnAnswers(before, i);
        AnsweredStays(before, last, i);
      } else {
        AnsweredNow(before, last, i);
      }
    }
  }

  lemma AtMostOne(s: State)
    requires Inv(s)
    ensures GoodLog(s.log) && |s.queued| + (if s.claimed.Some? then 1 else 0) <= 1
    ensures Outstanding(s.log).Some? ==> |s.queued| == 1
  {
  }
}
