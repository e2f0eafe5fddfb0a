// What becomes of an acceptance once Treasury saved it:
// treasury/src/core/application/use-cases/SubmitIntent.ts, lines 45-115.

module Acceptances {
  import opened Prelude
  import opened Events
  import opened Ledger
  import opened RetryProtocol

  // ---- what becomes of an acceptance ----

  predicate Edits(a: Action, intentId: string) {
    a.Answer? && a.intentId == intentId
  }

  ghost predicate Unedited(actions: seq<Action>, intentId: string) {
    forall a :: a in actions ==> !Edits(a, intentId)
  }

  predicate IsAccepted(s: System, intentId: string) {
    intentId in s.intents && s.intents[intentId].status == ACCEPTED
  }

  /** A rejection given to a submission of the intent that still waits for its reply. */
  predicate PendingRejection(s: System, intentId: string) {
    exists r :: 0 <= r < |s.replies| && IsPending(s, r, intentId)
  }

  predicate IsPending(s: System, r: nat, intentId: string)
    requires r < |s.replies|
  {
    s.replies[r].outcome.Rejected? && IsOpen(s, s.replies[r].call) && s.calls[s.replies[r].call].copy.id == intentId
  }

  /** With its event in the book, no request of the intent is answered with a rejection any more. */
  lemma {:induction false} NoMoreRejections(site: Site, s: System, call: nat, eventId: string, now: int, e: LedgerEvent, intentId: string)
    requires Invariant(site, s) && call < |s.calls| && s.calls[call].copy.id == intentId
    requires e in s.store && e.commandId == Some(Key(intentId))
    ensures var candidate := s.calls[call].candidate;
      Handled(site, s.store, candidate, candidate.sourceReference, eventId, now).outcome.Accepted?
  {
    FindByCommandIdFinds(s.store, Key(intentId));
  }

  /** An accepted intent with no rejection pending, and its event in the book. */
  ghost predicate Settled(s: System, intentId: string) {
    && IsAccepted(s, intentId) && !PendingRejection(s, intentId)
    && exists e :: e in s.store && e.commandId == Some(Key(intentId))
  }

  lemma {:induction false} SettledOutlivesDelivery(site: Site, s: System, reply: nat, intentId: string)
    requires Invariant(site, s) && Settled(s, intentId)
    ensures IsAccepted(Next(site, s, Deliver(reply)), intentId) && !PendingRejection(Next(site, s, Deliver(reply)), intentId)
  {
    var t := Next(site, s, Deliver(reply));
    if reply < |s.replies| && IsOpen(s, s.replies[reply].call) {
      assert !IsPending(s, reply, intentId);
    }
    forall r | 0 <= r < |t.replies| ensures !IsPending(t, r, intentId) {
      assert !IsPending(s, r, intentId);
    }
  }

  lemma {:induction false} SettledOutlivesHandling(site: Site, s: System, call: nat, eventId: string, now: int, intentId: string)
    requires Invariant(site, s) && Settled(s, intentId) && call < |s.calls|
    ensures IsAccepted(Next(site, s, Handle(call, eventId, now)), intentId)
    ensures !PendingRejection(Next(site, s, Handle(call, eventId, now)), intentId)
  {
    var candidate := s.calls[call].candidate;
    var h := Handled(site, s.store, candidate, candidate.sourceReference, eventId, now);
    HandlingReplies(site, s, call, eventId, now, h);
    var e :| e in s.store && e.commandId == Some(Key(intentId));
    if s.calls[call].copy.id == intentId {
      NoMoreRejections(site, s, call, eventId, now, e, intentId);
    }
    OneMoreReply(s, call, h, intentId);
  }

  lemma {:induction false} OneMoreReply(s: System, call: nat, h: Handling, intentId: string)
    requires call < |s.calls| && !PendingRejection(s, intentId)
    requires s.calls[call].copy.id == intentId ==> h.outcome.Accepted?
    ensures !PendingRejection(s.(store := h.store, replies := s.replies + [Reply(call, h.outcome)]), intentId)
  {
    var t := s.(store := h.store, replies := s.replies + [Reply(call, h.outcome)]);
    forall r | 0 <= r < |t.replies| ensures !IsPending(t, r, intentId) {
      if r < |s.replies| {
        assert !IsPending(s, r, intentId);
      }
    }
  }

  /** The replies are the same, every call that waits waited before, and the intent is unchanged. */
  ghost predicate Quiet(s: System, t: System, intentId: string) {
    && t.replies == s.replies && |s.calls| <= |t.calls|
    && (forall k :: 0 <= k < |s.calls| ==> t.calls[k].copy == s.calls[k].copy && (t.calls[k].open ==> s.calls[k].open))
    && intentId in s.intents && intentId in t.intents && t.intents[intentId] == s.intents[intentId]
  }

  lemma {:induction false} SettledOutlivesQuiet(s: System, t: System, intentId: string)
    requires TruthfulReplies(s) && IsAccepted(s, intentId) && !PendingRejection(s, intentId) && Quiet(s, t, intentId)
    ensures IsAccepted(t, intentId) && !PendingRejection(t, intentId)
  {
    forall r | 0 <= r < |t.replies| ensures !IsPending(t, r, intentId) {
      assert !IsPending(s, r, intentId) && s.replies[r].call < |s.calls|;
    }
  }

  lemma {:induction false} OtherProducersAreQuiet(site: Site, s: System, command: Command, eventId: string, now: int, intentId: string)
    requires intentId in s.intents
    ensures Quiet(s, Next(site, s, OtherProducer(command, eventId, now)), intentId)
  {
  }

  lemma {:induction false} OtherStepsAreQuiet(site: Site, s: System, a: Action, intentId: string)
    requires IsAccepted(s, intentId) && !Edits(a, intentId)
    requires a.Start? || a.Answer? || a.Submit? || a.Abandon?
    ensures Quiet(s, Next(site, s, a), intentId)
  {
  }

  lemma {:induction false} SettledOutlivesOtherSteps(site: Site, s: System, a: Action, intentId: string)
    requires Invariant(site, s) && Settled(s, intentId) && !Edits(a, intentId) && !a.Deliver? && !a.Handle?
    ensures IsAccepted(Next(site, s, a), intentId) && !PendingRejection(Next(site, s, a), intentId)
  {
    if a.OtherProducer? {
      OtherProducersAreQuiet(site, s, a.command, a.eventId, a.now, intentId);
    } else {
      OtherStepsAreQuiet(site, s, a, intentId);
    }
    SettledOutlivesQuiet(s, Next(site, s, a), intentId);
  }

  /** A request of a submission that never began changes nothing. */
  lemma {:induction false} NoSuchCall(site: Site, s: System, call: nat, eventId: string, now: int)
    requires call >= |s.calls|
    ensures Next(site, s, Handle(call, eventId, now)) == s
  {
  }

  lemma {:induction false} AcceptanceOutlivesAStep(site: Site, s: System, a: Action, intentId: string)
    requires Invariant(site, s) && Settled(s, intentId) && !Edits(a, intentId)
    ensures IsAccepted(Next(site, s, a), intentId) && !PendingRejection(Next(site, s, a), intentId)
  {
    match a
    case Deliver(reply) => SettledOutlivesDelivery(site, s, reply, intentId);
    case Handle(call, eventId, now) =>
      if call < |s.calls| {
        SettledOutlivesHandling(site, s, call, eventId, now, intentId);
      } else {
        NoSuchCall(site, s, call, eventId, now);
      }
    case _ => SettledOutlivesOtherSteps(site, s, a, intentId);
  }

  lemma {:induction false} SettledOutlivesAStep(site: Site, s: System, a: Action, intentId: string)
    requires Invariant(site, s) && Settled(s, intentId) && !Edits(a, intentId)
    ensures Settled(Next(site, s, a), intentId)
  {
    AcceptanceOutlivesAStep(site, s, a, intentId);
    StepKeepsTheInvariant(site, s, a);
    SettledIsInherited(s, Next(site, s, a), intentId);
  }

  lemma {:induction false} SettledIsInherited(s: System, t: System, intentId: string)
    requires Settled(s, intentId) && s.store <= t.store && IsAccepted(t, intentId) && !PendingRejection(t, intentId)
    ensures Settled(t, intentId)
  {
    var e :| e in s.store && e.commandId == Some(Key(intentId));
    assert e in t.store;
  }

  lemma {:induction false} SettledOutlivesARun(site: Site, actions: seq<Action>, more: seq<Action>, intentId: string)
    requires Settled(RunOf(site, actions), intentId) && Unedited(more, intentId)
    ensures Settled(RunOf(site, actions + more), intentId)
  {
    if more == [] {
      assert actions + more == actions;
    } else {
      var n := |more| - 1;
      SettledOutlivesARun(site, actions, more[..n], intentId);
      assert actions + more == (actions + more[..n]) + [more[n]];
      OneMore(site, actions + more[..n], more[n]);
      RunsKeepTheInvariant(site, actions + more[..n]);
      SettledOutlivesAStep(site, RunOf(site, actions + more[..n]), more[n], intentId);
    }
  }

  lemma {:induction false} AcceptedIsSettled(site: Site, actions: seq<Action>, intentId: string)
    requires IsAccepted(RunOf(site, actions), intentId) && !PendingRejection(RunOf(site, actions), intentId)
    ensures Settled(RunOf(site, actions), intentId)
  {
    StoredReferencesAreTheEvent(site, actions, intentId);
    var s := RunOf(site, actions);
    var i :| 0 <= i < |s.store| && s.store[i].id == s.intents[intentId].ledgerReference.value
             && s.store[i].commandId == Some(Key(intentId));
    assert s.store[i] in s.store;
  }

  lemma {:induction false} PendingRejectionOverwrites(site: Site, s: System, r: nat, intentId: string)
    requires r < |s.replies| && IsPending(s, r, intentId)
    ensures !IsAccepted(Next(site, s, Deliver(r)), intentId)
  {
  }

  /**
   * Saving is not guarded, so an acceptance can be overwritten: an accepted intent stays accepted through every
   * continuation that does not edit it exactly when no rejection is pending for a submission of it under way.
   */
  lemma {:induction false} AcceptancesSurviveExactlyWithoutAPendingRejection(site: Site, actions: seq<Action>, intentId: string)
    requires IsAccepted(RunOf(site, actions), intentId)
    ensures (forall more :: Unedited(more, intentId) ==> IsAccepted(RunOf(site, actions + more), intentId))
            <==> !PendingRejection(RunOf(site, actions), intentId)
  {
    var s := RunOf(site, actions);
    if !PendingRejection(s, intentId) {
      AcceptedIsSettled(site, actions, intentId);
      forall more | Unedited(more, intentId) ensures IsAccepted(RunOf(site, actions + more), intentId) {
        SettledOutlivesARun(site, actions, more, intentId);
      }
    } else {
      var r :| 0 <= r < |s.replies| && IsPending(s, r, intentId);
      PendingRejectionOverwrites(site, s, r, intentId);
      OneMore(site, actions, Deliver(r));
      assert Unedited([Deliver(r)], intentId) && !IsAccepted(RunOf(site, actions + [Deliver(r)]), intentId);
    }
  }

  // ---- when submissions do not overlap ----

  predicate HasOpenCall(s: System, intentId: string) {
    exists k :: 0 <= k < |s.calls| && IsOpenFor(s, k, intentId)
  }

  predicate IsOpenFor(s: System, k: nat, intentId: string)
    requires k < |s.calls|
  {
    s.calls[k].open && s.calls[k].copy.id == intentId
  }

  /** What happens at the Ledger changes no intent and ends no wait. */
  lemma {:induction false} HandlingLeavesTreasury(site: Site, s: System, call: nat, eventId: string, now: int)
    ensures Next(site, s, Handle(call, eventId, now)).intents == s.intents
    ensures Next(site, s, Handle(call, eventId, now)).calls == s.calls
  {
  }

  lemma {:induction false} OtherProducersLeaveTreasury(site: Site, s: System, command: Command, eventId: string, now: int)
    ensures Next(site, s, OtherProducer(command, eventId, now)).intents == s.intents
    ensures Next(site, s, OtherProducer(command, eventId, now)).calls == s.calls
  {
  }

  /** No submission of the intent begins while another one of it waits for its reply. */
  ghost predicate NoOverlap(site: Site, actions: seq<Action>, intentId: string) {
    forall i :: 0 <= i < |actions| && actions[i] == Submit(intentId) ==> NoOverlapAt(site, actions, i, intentId)
  }

  ghost predicate NoOverlapAt(site: Site, actions: seq<Action>, i: nat, intentId: string)
    requires i <= |actions|
  {
    var s := RunOf(site, actions[..i]);
    Begun(site, s.intents, intentId).Some? ==> !HasOpenCall(s, intentId)
  }

  /** One submission of the intent waits at most, and none once it is accepted. */
  ghost predicate OneAtATime(s: System, intentId: string) {
    && (forall j, k :: 0 <= j < |s.calls| && 0 <= k < |s.calls| && IsOpenFor(s, j, intentId) && IsOpenFor(s, k, intentId) ==> j == k)
    && (IsAccepted(s, intentId) ==> !HasOpenCall(s, intentId))
  }

  /** No wait begins. */
  ghost predicate OnlyCloses(s: System, t: System) {
    && |t.calls| == |s.calls|
    && forall k :: 0 <= k < |s.calls| ==> t.calls[k].copy == s.calls[k].copy && (t.calls[k].open ==> s.calls[k].open)
  }

  lemma {:induction false} OtherActionsOnlyClose(site: Site, s: System, a: Action)
    requires !a.Submit?
    ensures OnlyCloses(s, Next(site, s, a))
  {
    match a
    case Handle(call, eventId, now) => HandlingLeavesTreasury(site, s, call, eventId, now);
    case OtherProducer(command, eventId, now) => OtherProducersLeaveTreasury(site, s, command, eventId, now);
    case _ =>
  }

  lemma {:induction false} StillOneAtATime(s: System, t: System, intentId: string)
    requires OneAtATime(s, intentId) && OnlyCloses(s, t)
    requires IsAccepted(t, intentId) && !IsAccepted(s, intentId) ==> !HasOpenCall(t, intentId)
    ensures OneAtATime(t, intentId)
  {
    forall k | 0 <= k < |t.calls| ensures IsOpenFor(t, k, intentId) ==> IsOpenFor(s, k, intentId) {
    }
  }

  lemma {:induction false} OneAtATimeAfter(site: Site, s: System, a: Action, intentId: string)
    requires Invariant(site, s) && OneAtATime(s, intentId)
    requires a == Submit(intentId) && Begun(site, s.intents, intentId).Some? ==> !HasOpenCall(s, intentId)
    ensures OneAtATime(Next(site, s, a), intentId)
  {
    if a.Submit? {
      OneAtATimeAfterSubmit(site, s, a.intentId, intentId);
    } else {
      OtherActionsOnlyClose(site, s, a);
      if IsAccepted(Next(site, s, a), intentId) && !IsAccepted(s, intentId) {
        OnlyDeliveriesAccept(site, s, a, intentId);
      }
      StillOneAtATime(s, Next(site, s, a), intentId);
    }
  }

  /** Only the delivery of a reply waited for makes an intent accepted. */
  lemma {:induction false} AcceptingIsDelivering(site: Site, s: System, a: Action, intentId: string)
    requires Invariant(site, s) && IsAccepted(Next(site, s, a), intentId) && !IsAccepted(s, intentId)
    ensures a.Deliver? && a.reply < |s.replies| && IsOpen(s, s.replies[a.reply].call)
    ensures s.calls[s.replies[a.reply].call].copy.id == intentId
  {
    match a
    case Handle(call, eventId, now) => HandlingLeavesTreasury(site, s, call, eventId, now);
    case OtherProducer(command, eventId, now) => OtherProducersLeaveTreasury(site, s, command, eventId, now);
    case _ =>
  }

  /** Ending the one wait of an intent leaves it none. */
  lemma {:induction false} ClosingTheOneOpen(s: System, t: System, j: nat, intentId: string)
    requires OneAtATime(s, intentId) && j < |s.calls| && IsOpenFor(s, j, intentId) && t.calls == Closed(s.calls, j)
    ensures !HasOpenCall(t, intentId)
  {
    forall k | 0 <= k < |t.calls| ensures IsOpenFor(t, k, intentId) ==> IsOpenFor(s, k, intentId) && k != j {
    }
    assert forall k :: 0 <= k < |t.calls| ==> !IsOpenFor(t, k, intentId);
  }

  /** The delivery that makes an intent accepted ends the one wait it had. */
  lemma {:induction false} OnlyDeliveriesAccept(site: Site, s: System, a: Action, intentId: string)
    requires Invariant(site, s) && OneAtATime(s, intentId)
    requires IsAccepted(Next(site, s, a), intentId) && !IsAccepted(s, intentId)
    ensures !HasOpenCall(Next(site, s, a), intentId)
  {
    AcceptingIsDelivering(site, s, a, intentId);
    var j := s.replies[a.reply].call;
    Delivering(site, s, a.reply, Disposed(site, s.calls[j].copy, s.replies[a.reply].outcome));
    ClosingTheOneOpen(s, Next(site, s, a), j, intentId);
  }

  lemma {:induction false} OneAtATimeAfterSubmit(site: Site, s: System, submitted: string, intentId: string)
    requires Invariant(site, s) && OneAtATime(s, intentId)
    requires submitted == intentId && Begun(site, s.intents, intentId).Some? ==> !HasOpenCall(s, intentId)
    ensures OneAtATime(Next(site, s, Submit(submitted)), intentId)
  {
    var call := Begun(site, s.intents, submitted);
    if call.Some? {
      Submitting(site, s, submitted, call.value);
      assert call.value.copy.id == submitted;
      var t := s.(calls := s.calls + [call.value]);
      forall k | 0 <= k < |t.calls| && IsOpenFor(t, k, intentId) ensures k == |s.calls| || IsOpenFor(s, k, intentId) {
      }
      assert t.intents == s.intents;
    }
  }

  lemma {:induction false} RunsGoOneAtATime(site: Site, actions: seq<Action>, intentId: string)
    requires NoOverlap(site, actions, intentId)
    ensures OneAtATime(RunOf(site, actions), intentId)
  {
    if actions != [] {
      var n := |actions| - 1;
      forall i | 0 <= i < n && actions[..n][i] == Submit(intentId) ensures NoOverlapAt(site, actions[..n], i, intentId) {
        assert actions[i] == Submit(intentId) && NoOverlapAt(site, actions, i, intentId);
        assert actions[..n][..i] == actions[..i];
      }
      RunsGoOneAtATime(site, actions[..n], intentId);
      RunsKeepTheInvariant(site, actions[..n]);
      if actions[n] == Submit(intentId) {
        assert NoOverlapAt(site, actions, n, intentId);
      }
      OneAtATimeAfter(site, RunOf(site, actions[..n]), actions[n], intentId);
    }
  }

  /**
   * So when no submission of an intent begins while another one of it is unanswered, an acceptance is final:
   * nothing but an edit changes it. An overwritten acceptance is always the work of overlapping submissions.
   */
  lemma {:induction false} AcceptancesAreFinalWithoutOverlap(site: Site, actions: seq<Action>, more: seq<Action>, intentId: string)
    requires NoOverlap(site, actions, intentId) && IsAccepted(RunOf(site, actions), intentId) && Unedited(more, intentId)
    ensures IsAccepted(RunOf(site, actions + more), intentId)
  {
    RunsGoOneAtATime(site, actions, intentId);
    var s := RunOf(site, actions);
    assert !PendingRejection(s, intentId) by {
      forall r | 0 <= r < |s.replies| ensures !IsPending(s, r, intentId) {
        if IsPending(s, r, intentId) {
          assert IsOpenFor(s, s.replies[r].call, intentId);
          assert false;
        }
      }
    }
    AcceptancesSurviveExactlyWithoutAPendingRejection(site, actions, intentId);
  }
}
