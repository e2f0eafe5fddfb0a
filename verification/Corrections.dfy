// Runs from the empty book in which a correction is undone, and in which a payment follows a reversal:
// ledger/src/core/application/use-cases/CreateLedgerEventUseCase.ts, lines 61-133.

module Corrections {
  import opened Prelude
  import opened Moneys
  import opened Events
  import opened Catalog
  import opened Validation
  import opened Retraction
  import opened Figures
  import opened EventPayload
  import opened Ledger
  import opened Conservation
  import opened Rectification
  import opened Shares
  import opened Guards
  import opened Witnesses

  // ---- a mistaken retraction is undone ----

  const ACCRUED: seq<Plain> := [Accrual(P, 100)]

  const WITHDRAWN: seq<Plain> := ACCRUED + [Withdrawal(P, 100, Name(1))]

  /** An accrual, its withdrawal, and the withdrawal of that one. */
  const UNDONE: seq<Plain> := WITHDRAWN + [Withdrawal(P, 100, Name(2))]

  lemma {:induction false} TheAccrualIsRecorded(env: Env) returns (t: LedgerEvent)
    ensures AllRecorded(env, ACCRUED) && Book(env, ACCRUED) == [t]
    ensures t.id == Name(1) && IsPlain(t, Accrual(P, 100))
    ensures Position([t], P) == ObjectTotals(100, 0, false)
  {
    ReachesNothing(env, Irregularity.Retraction);
    ReachesOrigination(env, [], Accrual(P, 100), Irregularity.Retraction, ObjectTotals(0, 0, false));
    assert ACCRUED == [] + [Accrual(P, 100)];
    t := FirstEvent(Book(env, ACCRUED), ACCRUED);
    assert Book(env, ACCRUED) == [t];
  }

  lemma {:induction false} AccrualsAreForward(t: LedgerEvent)
    requires IsPlain(t, Accrual(P, 100))
    ensures ForwardOnly([t]) && !IsRetraction(t) && Names(t, P)
  {
    assert t.objects[0].objectId == P;
  }

  lemma {:induction false} TheWithdrawalIsRecorded(env: Env, t: LedgerEvent) returns (r: LedgerEvent)
    requires AllRecorded(env, ACCRUED) && Book(env, ACCRUED) == [t] && t.id == Name(1) && IsPlain(t, Accrual(P, 100))
    ensures AllRecorded(env, WITHDRAWN) && Book(env, WITHDRAWN) == [t] + [r]
    ensures r.id == Name(2) && Retracting(r, t.id) && r.objects == [Witnesses.Receivable(P, Retracts)]
  {
    AccrualsAreForward(t);
    assert |Name(1)| == 1;
    r := WithdrawalIsRecorded(env, ACCRUED, Withdrawal(P, 100, Name(1)), t);
    SecondIsCalledByItsNumber(Book(env, WITHDRAWN), WITHDRAWN, t, r);
  }

  lemma {:induction false} SecondIsCalledByItsNumber(store: seq<LedgerEvent>, ps: seq<Plain>, t: LedgerEvent, r: LedgerEvent)
    requires Records(store, ps) && store == [t] + [r]
    ensures r.id == Name(2)
  {
    assert store[1] == r;
  }

  /** What the retraction guard sees when the withdrawal is to be withdrawn. */
  lemma {:induction false} TheWithdrawalCanBeWithdrawn(t: LedgerEvent, r: LedgerEvent, c: Command)
    requires t.id == Name(1) && r.id == Name(2) && Retracting(r, t.id) && !CarriesRetraction(t)
    requires c.eventType == LedgerCorrection && c.relatedEventId == Some(Name(2)) && c.objects == [Witnesses.Receivable(P, Retracts)]
    ensures GuardRefusal([t, r], c, 100).None?
  {
    assert |Name(1)| == 1 && |Name(2)| == 2;
    assert [t, r][0] == t && [t, r][1] == r;
    assert r in [t, r] && OriginIsThere([t, r], c);
    assert !HasRetraction([t, r], r.id) && !RetractsARetraction([t, r], r);
    GuardsAdmitExactly([t, r], c, 100);
  }

  lemma {:induction false} NextIsRecorded(env: Env, ps: seq<Plain>, p: Plain, before: seq<LedgerEvent>, c: Command) returns (e: LedgerEvent)
    requires AllRecorded(env, ps) && Book(env, ps) == before && ps != []
    requires Admissible(p) && !Truthy(p.commandId) && c == CommandOf(p, |ps| + 1) && GuardRefusal(before, c, p.units).None?
    ensures AllRecorded(env, ps + [p]) && Book(env, ps + [p]) == before + [e] && IsPlain(e, p)
  {
    e := OneMoreRecorded(env, ps, p);
  }

  lemma {:induction false} WithdrawalsAreAdmissible(target: string)
    requires target != ""
    ensures Admissible(Withdrawal(P, 100, target))
  {
  }

  lemma {:induction false} TheUndoingIsRecorded(env: Env, ps: seq<Plain>, t: LedgerEvent, r: LedgerEvent) returns (q: LedgerEvent)
    requires AllRecorded(env, ps) && |ps| == 2 && Book(env, ps) == [t, r] && IsPlain(t, Accrual(P, 100))
    requires t.id == Name(1) && r.id == Name(2) && Retracting(r, t.id)
    ensures AllRecorded(env, ps + [Withdrawal(P, 100, Name(2))]) && Book(env, ps + [Withdrawal(P, 100, Name(2))]) == [t, r] + [q]
    ensures IsPlain(q, Withdrawal(P, 100, Name(2)))
  {
    var w := Withdrawal(P, 100, Name(2));
    assert |Name(2)| == 2;
    WithdrawalsAreAdmissible(Name(2));
    AccrualsAreForward(t);
    TheWithdrawalCanBeWithdrawn(t, r, CommandOf(w, 3));
    q := NextIsRecorded(env, ps, w, [t, r], CommandOf(w, 3));
  }

  lemma {:induction false} WithdrawalsRetract(q: LedgerEvent)
    requires IsPlain(q, Withdrawal(P, 100, Name(2)))
    ensures Retracting(q, Name(2)) && q.objects == [Witnesses.Receivable(P, Retracts)]
  {
    assert |Name(2)| == 2;
    assert q.objects[0].relation == Retracts;
  }

  lemma {:induction false} ThreeInARow(t: LedgerEvent, r: LedgerEvent, q: LedgerEvent)
    ensures Undone([t], r, [], q) == [t, r, q] && [t] + [] == [t]
  {
  }

  /** The figures of the position are back where they were before either correction. */
  lemma {:induction false} TheFiguresAreBack(env: Env, t: LedgerEvent, r: LedgerEvent, q: LedgerEvent, fig: Figure)
    requires WellFormed(env, [t, r, q]) && IsRetraction(r) && Retracting(q, r.id) && !IsRetraction(t)
    ensures Value([t, r, q], fig) == Contribution(fig, t)
  {
    ThreeInARow(t, r, q);
    RetractingARetractionRestores(env, [t], r, [], q, fig);
    OneEventBook(t, fig);
  }

  lemma {:induction false} ThePositionIsBack(env: Env, t: LedgerEvent, r: LedgerEvent, q: LedgerEvent)
    requires WellFormed(env, [t, r, q]) && IsRetraction(r) && Retracting(q, r.id) && !IsRetraction(t)
    requires t.objects == [Witnesses.Receivable(P, Originates)] && t.amount.units == 100
    requires r.objects == q.objects == [Witnesses.Receivable(P, Retracts)]
    ensures Position([t, r, q], P) == ObjectTotals(100, 0, false)
  {
    var book := [t, r, q];
    assert Names(t, P) && Names(r, P) && Names(q, P) by {
      assert t.objects[0].objectId == P && r.objects[0].objectId == P && q.objects[0].objectId == P;
    }
    AllInScope(book, P);
    AccrualContributes(t);
    TheFiguresAreBack(env, t, r, q, Originated(P));
    TheFiguresAreBack(env, t, r, q, Settled(P));
    TheFiguresAreBack(env, t, r, q, Adjusted(P));
    TheFiguresAreBack(env, t, r, q, Reversals(P));
    TotalsAreValues(book, P);
  }

  /**
   * A mistaken retraction can be undone: from the empty book an accrual, its withdrawal and the withdrawal of the
   * withdrawal are all recorded, and the position is back at what was accrued.
   */
  lemma {:induction false} AMistakenRetractionIsUndone(env: Env)
    ensures AllRecorded(env, UNDONE) && |Book(env, UNDONE)| == 3
    ensures Position(Book(env, ACCRUED), P) == Position(Book(env, UNDONE), P) == ObjectTotals(100, 0, false)
    ensures Position(Book(env, WITHDRAWN), P) == ObjectTotals(0, 0, false)
  {
    var t := TheAccrualIsRecorded(env);
    var r := TheWithdrawalIsRecorded(env, t);
    assert [t] + [r] == [t, r];
    var q := TheUndoingIsRecorded(env, WITHDRAWN, t, r);
    WithdrawalsRetract(q);
    assert [t, r] + [q] == [t, r, q];
    AccrualsAreForward(t);
    RunsAreWellFormed(env, StepsOf(UNDONE));
    ThePositionIsBack(env, t, r, q);
    assert r.objects[0].objectId == P;
    WithdrawnPosition(env, StepsOf(WITHDRAWN), [t], r, t);
  }

  // ---- a payment follows a reversal ----

  function Reversal(position: string, units: nat): Plain {
    Plain(LedgerCorrection, DataReconciliation, [Witnesses.Receivable(position, Reverses)], units, "BRL", None, None)
  }

  const REVERSED: seq<Plain> := ACCRUED + [Reversal(P, 100)]

  function Payment(): Plain {
    Acknowledgement([Witnesses.Receivable(P, Settles)], 150)
  }

  /** An accrual of 100, its reversal, and a payment of 150 against it. */
  const PAID: seq<Plain> := REVERSED + [Payment()]

  lemma {:induction false} ReversalsAreValid(e: LedgerEvent)
    requires IsPlain(e, Reversal(P, 100))
    ensures IsValid(e)
  {
    var p := Reversal(P, 100);
    var o := Witnesses.Receivable(P, Reverses);
    assert e.objects[0] == o;
    PlainFlow(e, p);
    ReversalMeaning(e);
    ReversalLinks(e);
    assert BasicViolation(e).None? && ReasonViolation(e).None?;
  }

  lemma {:induction false} ReversalMeaning(e: LedgerEvent)
    requires IsPlain(e, Reversal(P, 100))
    ensures ObjectViolation(e).None? && CauseViolation(e).None?
  {
    assert CommissionReceivable in ContractOf(LedgerCorrection).objects;
    assert ContractOf(LedgerCorrection).objects[CommissionReceivable] == {Reverses, Adjusts, Retracts};
  }

  lemma {:induction false} ReversalLinks(e: LedgerEvent)
    requires IsPlain(e, Reversal(P, 100))
    ensures LinkViolation(e).None?
  {
    assert !CarriesRetraction(e);
  }

  lemma {:induction false} ReversalPasses(store: seq<LedgerEvent>, c: Command)
    requires c.relatedEventId == None && c.objects == [Witnesses.Receivable(P, Reverses)]
    ensures GuardRefusal(store, c, 100).None?
  {
    NoSettlementNoRefusal(store, c.objects, 100);
  }

  lemma {:induction false} ReversalsAreDecided(env: Env, store: seq<LedgerEvent>, c: Command, id: string) returns (v: LedgerEvent)
    requires AsksFor(c, Reversal(P, 100)) && IsNew(store, c, id) && store != []
    ensures Decide(env, store, c, id, 0) == Commit(v) && IsPlain(v, Reversal(P, 100))
    ensures v.id == id && v.source.reference == c.sourceReference && v.commandId == c.commandId
  {
    var p := Reversal(P, 100);
    ReadingBackWhatWasPrinted(Money(100, "BRL"));
    PlainPartiesAreRead("BRL");
    TheEventIsPlain(env, store, c, p, id, 0);
    v := EventOf(env, store, c, p, id, 0);
    ReversalsAreValid(v);
    ReversalPasses(store, c);
    PlainDecision(env, store, c, p, id, 0);
  }

  lemma {:induction false} TheReversalIsRecorded(env: Env, t: LedgerEvent) returns (v: LedgerEvent)
    requires AllRecorded(env, ACCRUED) && Book(env, ACCRUED) == [t]
    ensures AllRecorded(env, REVERSED) && Book(env, REVERSED) == [t] + [v] && IsPlain(v, Reversal(P, 100))
  {
    var p := Reversal(P, 100);
    TheNextNameIsNew([t], ACCRUED, p);
    CommandAsksFor(p, 2);
    v := ReversalsAreDecided(env, [t], CommandOf(p, 2), Name(2));
    BookOfOneMore(env, ACCRUED, p);
    OneMoreRecord([t], ACCRUED, v, p);
  }

  lemma {:induction false} NothingIsRetracted(events: seq<LedgerEvent>)
    requires forall e :: e in events ==> !IsRetraction(e)
    ensures RetractedIds(events) == {} && RetractionMap(events) == map[]
  {
    if events != [] {
      NothingIsRetracted(events[..|events| - 1]);
    }
  }

  lemma {:induction false} ThePaymentPasses(t: LedgerEvent, v: LedgerEvent, c: Command)
    requires IsPlain(t, Accrual(P, 100)) && IsPlain(v, Reversal(P, 100)) && AsksFor(c, Payment())
    ensures GuardRefusal([t] + [v], c, 150).None?
  {
    var book := [t] + [v];
    TheReversalStands(t, v);
    ReversedPositionsAreNeverRefused(book, P, 150);
    PaymentIsAdmissible();
    PlainPasses(book, c, Payment());
  }

  lemma {:induction false} TheReversalStands(t: LedgerEvent, v: LedgerEvent)
    requires IsPlain(t, Accrual(P, 100)) && IsPlain(v, Reversal(P, 100))
    ensures SomeDeclares(Scope([t] + [v], P), RetractedIds(Scope([t] + [v], P)), P, Reverses)
  {
    var book := [t] + [v];
    AccrualsAreForward(t);
    assert v.objects[0] == Witnesses.Receivable(P, Reverses);
    AllInScope(book, P);
    NothingIsRetracted(book);
    assert v in book && Declares(v, P, Reverses);
  }

  lemma {:induction false} PaymentIsAdmissible()
    ensures Admissible(Payment()) && Payment().objects == [Witnesses.Receivable(P, Settles)]
  {
    assert AdmissibleObject(Payment(), Payment().objects[0]);
  }

  /**
   * A payment that follows a reversal is recorded, whatever its amount: 150 against an accrual of 100, which
   * without the reversal is refused with what is left.
   */
  lemma {:induction false} PaymentsFollowReversals(env: Env)
    ensures AllRecorded(env, PAID) && |Book(env, PAID)| == 3
    ensures ClosingRefusal(Book(env, ACCRUED), P, 150) == Some(OverSettlement(P, 100))
  {
    var t := TheAccrualIsRecorded(env);
    var v := TheReversalIsRecorded(env, t);
    var f := ThePaymentIsRecorded(env, REVERSED, t, v);
    ThePaymentWouldNotFit(Book(env, ACCRUED));
  }

  lemma {:induction false} ThePaymentIsRecorded(env: Env, ps: seq<Plain>, t: LedgerEvent, v: LedgerEvent) returns (f: LedgerEvent)
    requires AllRecorded(env, ps) && |ps| == 2 && Book(env, ps) == [t] + [v]
    requires IsPlain(t, Accrual(P, 100)) && IsPlain(v, Reversal(P, 100))
    ensures AllRecorded(env, ps + [Payment()])
  {
    CommandAsksFor(Payment(), 3);
    PaymentIsAdmissible();
    ThePaymentPasses(t, v, CommandOf(Payment(), 3));
    f := NextIsRecorded(env, ps, Payment(), [t] + [v], CommandOf(Payment(), 3));
  }

  lemma {:induction false} ThePaymentWouldNotFit(store: seq<LedgerEvent>)
    requires Position(store, P) == ObjectTotals(100, 0, false)
    ensures ClosingRefusal(store, P, 150) == Some(OverSettlement(P, 100))
  {
  }
}
