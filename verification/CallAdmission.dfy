/**
 When the online guard admits a model call, said of the ledger's events alone: the recorder may present the
 call, its attempt is open and frozen as it says, every earlier call of the batch is closed with a known cost,
 and what the batch and the case have spent leaves room for the reservation.
 */
module CallAdmission {
  import opened Wrappers
  import opened Trace
  import opened CallRecorder

  // ---------------------------------------------------------------- spend

  /** What an event adds to the scored spend. */
  function Spent(e: Event): nat {
    if e.payload.CostRecorded? && e.payload.cost.attribution.CampaignScored? && e.payload.cost.amount.Some?
    then e.payload.cost.amount.value else 0
  }

  function BatchSpend(events: seq<Event>, batchId: string): nat {
    if events == [] then 0
    else
      var e := events[|events| - 1];
      BatchSpend(events[..|events| - 1], batchId) + (if e.batchId == batchId then Spent(e) else 0)
  }

  function CaseSpend(events: seq<Event>, batchId: string, caseId: string): nat {
    if events == [] then 0
    else
      var e := events[|events| - 1];
      CaseSpend(events[..|events| - 1], batchId, caseId)
        + (if e.batchId == batchId && e.caseId == caseId then Spent(e) else 0)
  }

  predicate Affordable(r: Recorder, events: seq<Event>) {
    && BatchSpend(events, r.batchId) + r.reserved <= r.campaignCap
    && CaseSpend(events, r.batchId, r.caseId) + r.reserved <= r.caseCap
  }

  // ---------------------------------------------------------------- the other conditions

  /** What a recorder may be built with. */
  predicate Constructible(r: Recorder) {
    && r.reserved <= r.caseCap && r.reserved <= r.campaignCap
    && (r.approval.OfflineZeroCost? ==> r.approvalRef.None?)
    && (r.approval.ExplicitUserApproval? ==>
          r.lane.Scored? && r.approvalRef.Some? && 3 <= |r.approvalRef.value| <= 200)
  }

  /** What it may present at all, whatever the ledger holds. */
  predicate Presentable(r: Recorder, q: Request) {
    var offline := q.provider == "offline-fixture" || q.provider == "local-model";
    && Constructible(r)
    && (r.lane.Smoke? ==> q.provider == "offline-fixture")
    && (r.approval.OfflineZeroCost? ==> offline && r.reserved == 0)
    && (r.approval.ExplicitUserApproval? ==> offline || 0 < r.reserved)
  }

  /** The start froze what the recorder holds. */
  predicate FrozenFor(r: Recorder, f: Freeze) {
    && f.campaign.id == r.batchId && f.pricing == r.pricing
    && f.campaign.caseCap == r.caseCap && f.campaign.campaignCap == r.campaignCap
    && f.campaign.approval == r.approval && f.campaign.approvalRef == r.approvalRef
  }

  predicate GeneratesFor(r: Recorder, q: Request, f: Freeze) {
    && f.generator.provider == q.provider && f.generator.requestedModel == Some(q.requestedModel)
    && f.generator.modelIdentity == r.modelIdentity && f.generator.config == q.config
  }

  predicate StartsAttempt(e: Event, attemptId: string) {
    e.attemptId == attemptId && e.payload.AttemptStarted?
  }

  /** The attempt kept its batch and case, has not finished, and started once, with this freeze. */
  ghost predicate AttemptIsOpen(r: Recorder, events: seq<Event>, f: Freeze) {
    && (forall i :: 0 <= i < |events| && events[i].attemptId == r.attemptId ==>
          events[i].batchId == r.batchId && events[i].caseId == r.caseId && !events[i].payload.AttemptFinished?)
    && exists i ::
         && 0 <= i < |events| && StartsAttempt(events[i], r.attemptId) && events[i].payload.start.freeze == f
         && forall k :: 0 <= k < |events| && StartsAttempt(events[k], r.attemptId) ==> k == i
  }

  ghost predicate OpenFor(r: Recorder, events: seq<Event>, q: Request) {
    exists f :: AttemptIsOpen(r, events, f) && FrozenFor(r, f) && GeneratesFor(r, q, f)
  }

  /** What an event does to a call: it starts it, ends it, or prices it. */
  datatype Act = Starts | Ends | Prices

  predicate Does(e: Event, batchId: string, act: Act, callId: string) {
    && e.batchId == batchId
    && match act
       case Starts => e.payload.ModelCallStarted? && e.payload.call.callId == callId
       case Ends => e.payload.ModelCallFinished? && e.payload.callId == callId
       case Prices =>
         && e.payload.CostRecorded? && e.payload.cost.category.ModelInference?
         && e.payload.cost.sourceCall == Some(callId)
  }

  ghost predicate Done(events: seq<Event>, batchId: string, act: Act, callId: string) {
    exists i :: 0 <= i < |events| && Does(events[i], batchId, act, callId)
  }

  ghost predicate DoneOnce(events: seq<Event>, batchId: string, act: Act, callId: string) {
    exists i ::
      && 0 <= i < |events| && Does(events[i], batchId, act, callId)
      && forall k :: 0 <= k < |events| && Does(events[k], batchId, act, callId) ==> k == i
  }

  ghost predicate NeverTwice(events: seq<Event>, batchId: string, act: Act, callId: string) {
    forall i, k ::
      0 <= i < k < |events| && Does(events[i], batchId, act, callId) ==> !Does(events[k], batchId, act, callId)
  }

  /** A cost whose amount is certain, and which names its call if it is a model's. */
  predicate CostIsCertain(c: Cost) {
    && c.amount.Some? && (c.status.Measured? || (c.status.ZeroVerified? && c.amount.value == 0))
    && (c.category.ModelInference? ==> c.sourceCall.Some?)
  }

  ghost predicate CostsAreCertain(events: seq<Event>, batchId: string) {
    forall i :: 0 <= i < |events| && events[i].batchId == batchId && events[i].payload.CostRecorded? ==>
      CostIsCertain(events[i].payload.cost)
  }

  /** Finished once, with usage that is not unknown, and priced once. */
  ghost predicate IsClosed(events: seq<Event>, batchId: string, callId: string) {
    && DoneOnce(events, batchId, Ends, callId) && DoneOnce(events, batchId, Prices, callId)
    && forall i :: 0 <= i < |events| && Does(events[i], batchId, Ends, callId) ==>
         !events[i].payload.callFinish.usage.status.UnknownUsage?
  }

  /** Every call of the batch is another one, of another case, and closed; nothing ends or prices a call that is not. */
  ghost predicate BatchIsSettled(r: Recorder, events: seq<Event>, callId: string) {
    && CostsAreCertain(events, r.batchId)
    && (forall p :: NeverTwice(events, r.batchId, Starts, p))
    && (forall act :: !Done(events, r.batchId, act, callId))
    && (forall i ::
          0 <= i < |events| && events[i].batchId == r.batchId && events[i].payload.ModelCallStarted? ==>
            events[i].caseId != r.caseId && IsClosed(events, r.batchId, events[i].payload.call.callId))
    && forall act, p :: Done(events, r.batchId, act, p) ==> Done(events, r.batchId, Starts, p)
  }

  ghost predicate Admissible(r: Recorder, events: seq<Event>, q: Request) {
    && Presentable(r, q) && OpenFor(r, events, q) && BatchIsSettled(r, events, q.callId) && Affordable(r, events)
  }

  // ---------------------------------------------------------------- the fields

  lemma {:induction false} PresentableIff(r: Recorder, q: Request)
    ensures Constructible(r) <==> WellFormed(r)
    ensures Presentable(r, q) <==> WellFormed(r) && AuthorizationError(r, q).None?
  {
  }

  // ---------------------------------------------------------------- the attempt

  ghost predicate SingleStart(r: Recorder, events: seq<Event>, st: AttemptStart) {
    exists i ::
      && 0 <= i < |events| && Current(r, events[i]) && events[i].payload == AttemptStarted(st)
      && forall k :: 0 <= k < |events| && Current(r, events[k]) && events[k].payload.AttemptStarted? ==> k == i
  }

  lemma {:induction false} NoStarts(r: Recorder, events: seq<Event>)
    ensures CurrentStarts(r, events) == []
            <==> forall i :: 0 <= i < |events| && Current(r, events[i]) ==> !events[i].payload.AttemptStarted?
  {
    if events != [] {
      var n := |events| - 1;
      NoStarts(r, events[..n]);
      assert forall i :: 0 <= i < n ==> events[..n][i] == events[i];
    }
  }

  predicate IsOwnOpening(r: Recorder, e: Event) {
    Current(r, e) && e.payload.AttemptStarted?
  }

  lemma {:induction false} OneMoreStart(r: Recorder, events: seq<Event>, st: AttemptStart)
    requires events != []
    ensures var n := |events| - 1;
            SingleStart(r, events, st) <==>
              if IsOwnOpening(r, events[n])
              then events[n].payload.start == st && (forall i :: 0 <= i < n ==> !IsOwnOpening(r, events[i]))
              else SingleStart(r, events[..n], st)
  {
    hide Current;
    var n := |events| - 1;
    var old_ := events[..n];
    assert forall i :: 0 <= i < n ==> old_[i] == events[i];
    if !IsOwnOpening(r, events[n]) && SingleStart(r, old_, st) {
      var i :| 0 <= i < n && Current(r, old_[i]) && old_[i].payload == AttemptStarted(st)
        && forall k :: 0 <= k < n && Current(r, old_[k]) && old_[k].payload.AttemptStarted? ==> k == i;
      assert Current(r, events[i]) && events[i].payload == AttemptStarted(st);
      assert forall k :: 0 <= k < |events| && Current(r, events[k]) && events[k].payload.AttemptStarted? ==>
               k < n && Current(r, old_[k]);
    }
  }

  lemma {:induction false} OneStart(r: Recorder, events: seq<Event>, st: AttemptStart)
    ensures CurrentStarts(r, events) == [st] <==> SingleStart(r, events, st)
  {
    if events != [] {
      var n := |events| - 1;
      var old_ := events[..n];
      OneStart(r, old_, st);
      NoStarts(r, old_);
      OneMoreStart(r, events, st);
      assert CurrentStarts(r, events)
          == CurrentStarts(r, old_) + (if IsOwnOpening(r, events[n]) then [events[n].payload.start] else []);
      hide SingleStart, CurrentStarts;
      assert forall i :: 0 <= i < n ==> old_[i] == events[i];
      if IsOwnOpening(r, events[n]) && CurrentStarts(r, old_) == [] {
        assert CurrentStarts(r, events)[0] == events[n].payload.start;
      }
    }
  }

  lemma {:induction false} MatchingMeans(r: Recorder, events: seq<Event>, q: Option<Request>, st: AttemptStart)
    requires CurrentStarts(r, events) == [st]
    ensures MatchingStartError(r, events, q).None? <==>
              && (forall i :: 0 <= i < |events| && events[i].attemptId == r.attemptId ==> Current(r, events[i]))
              && (forall i :: 0 <= i < |events| && Current(r, events[i]) ==> !events[i].payload.AttemptFinished?)
              && FrozenFor(r, st.freeze) && (q.Some? ==> GeneratesFor(r, q.value, st.freeze))
  {
    hide Current, CurrentStarts;
  }

  lemma {:induction false} OpenMeans(r: Recorder, events: seq<Event>, st: AttemptStart)
    requires CurrentStarts(r, events) == [st]
    ensures AttemptIsOpen(r, events, st.freeze) <==>
              && (forall i :: 0 <= i < |events| && events[i].attemptId == r.attemptId ==> Current(r, events[i]))
              && (forall i :: 0 <= i < |events| && Current(r, events[i]) ==> !events[i].payload.AttemptFinished?)
    ensures forall f :: AttemptIsOpen(r, events, f) ==> f == st.freeze
  {
    OneStart(r, events, st);
    hide CurrentStarts;
    var i :| 0 <= i < |events| && Current(r, events[i]) && events[i].payload == AttemptStarted(st)
      && forall k :: 0 <= k < |events| && Current(r, events[k]) && events[k].payload.AttemptStarted? ==> k == i;
    assert StartsAttempt(events[i], r.attemptId);
  }

  lemma {:induction false} OpenHasStart(r: Recorder, events: seq<Event>, f: Freeze) returns (st: AttemptStart)
    requires AttemptIsOpen(r, events, f)
    ensures CurrentStarts(r, events) == [st]
  {
    var i :| 0 <= i < |events| && StartsAttempt(events[i], r.attemptId) && events[i].payload.start.freeze == f
      && forall k :: 0 <= k < |events| && StartsAttempt(events[k], r.attemptId) ==> k == i;
    st := events[i].payload.start;
    OneStart(r, events, st);
    hide CurrentStarts;
    assert Current(r, events[i]) && events[i].payload == AttemptStarted(st);
    assert forall k :: 0 <= k < |events| && Current(r, events[k]) && events[k].payload.AttemptStarted? ==>
             StartsAttempt(events[k], r.attemptId);
  }

  lemma {:induction false} MatchedHasStart(r: Recorder, events: seq<Event>, q: Option<Request>)
    returns (st: AttemptStart)
    requires MatchingStartError(r, events, q).None?
    ensures CurrentStarts(r, events) == [st]
  {
    hide CurrentStarts;
    st := CurrentStarts(r, events)[0];
  }

  lemma {:induction false} OpenIff(r: Recorder, events: seq<Event>, q: Request)
    ensures OpenFor(r, events, q) <==> MatchingStartError(r, events, Some(q)).None?
  {
    hide CurrentStarts, AttemptIsOpen, FrozenFor, GeneratesFor, MatchingStartError;
    if f :| AttemptIsOpen(r, events, f) && FrozenFor(r, f) && GeneratesFor(r, q, f) {
      var st := OpenHasStart(r, events, f);
      MatchingMeans(r, events, Some(q), st);
      OpenMeans(r, events, st);
    }
    if MatchingStartError(r, events, Some(q)).None? {
      var st := MatchedHasStart(r, events, Some(q));
      MatchingMeans(r, events, Some(q), st);
      OpenMeans(r, events, st);
    }
  }

  // ---------------------------------------------------------------- the book

  /** How often an act was done to a call. */
  function Times(events: seq<Event>, batchId: string, act: Act, callId: string): nat {
    if events == [] then 0
    else
      Times(events[..|events| - 1], batchId, act, callId)
        + (if Does(events[|events| - 1], batchId, act, callId) then 1 else 0)
  }

  lemma {:induction false} NeverDone(events: seq<Event>, batchId: string, act: Act, callId: string)
    ensures Times(events, batchId, act, callId) == 0 <==> !Done(events, batchId, act, callId)
  {
    hide Does;
    if events != [] {
      var n := |events| - 1;
      NeverDone(events[..n], batchId, act, callId);
      assert forall i :: 0 <= i < n ==> events[..n][i] == events[i];
    }
  }

  lemma {:induction false} OnceSplits(events: seq<Event>, batchId: string, act: Act, callId: string)
    requires events != []
    ensures var n := |events| - 1;
            DoneOnce(events, batchId, act, callId) <==>
              if Does(events[n], batchId, act, callId) then !Done(events[..n], batchId, act, callId)
              else DoneOnce(events[..n], batchId, act, callId)
  {
    hide Does;
    var n := |events| - 1;
    var old_ := events[..n];
    assert forall i :: 0 <= i < n ==> old_[i] == events[i];
    if Does(events[n], batchId, act, callId) {
      if DoneOnce(events, batchId, act, callId) {
        forall i | 0 <= i < n ensures !Does(old_[i], batchId, act, callId) {
          assert old_[i] == events[i];
        }
      }
    } else if DoneOnce(old_, batchId, act, callId) {
      var i :| 0 <= i < n && Does(old_[i], batchId, act, callId)
        && forall k :: 0 <= k < n && Does(old_[k], batchId, act, callId) ==> k == i;
      assert Does(events[i], batchId, act, callId);
      assert forall k :: 0 <= k < |events| && Does(events[k], batchId, act, callId) ==>
               k < n && Does(old_[k], batchId, act, callId);
    }
  }

  lemma {:induction false} OnceDone(events: seq<Event>, batchId: string, act: Act, callId: string)
    ensures Times(events, batchId, act, callId) == 1 <==> DoneOnce(events, batchId, act, callId)
  {
    hide Does, Done;
    if events != [] {
      OnceSplits(events, batchId, act, callId);
      OnceDone(events[..|events| - 1], batchId, act, callId);
      NeverDone(events[..|events| - 1], batchId, act, callId);
      hide DoneOnce;
    }
  }

  lemma {:induction false} TwiceSplits(events: seq<Event>, batchId: string, act: Act, callId: string)
    requires events != []
    ensures var n := |events| - 1;
            NeverTwice(events, batchId, act, callId) <==>
              NeverTwice(events[..n], batchId, act, callId)
              && (Does(events[n], batchId, act, callId) ==> !Done(events[..n], batchId, act, callId))
  {
    hide Does;
    var n := |events| - 1;
    assert forall i :: 0 <= i < n ==> events[..n][i] == events[i];
  }

  /** The book says of a call what the events say. */
  ghost predicate Books(r: Recorder, b: Book, events: seq<Event>, p: string) {
    && (p in b.starts <==> Done(events, r.batchId, Starts, p))
    && (if p in b.finishes then |b.finishes[p]| else 0) == Times(events, r.batchId, Ends, p)
    && (if p in b.costs then |b.costs[p]| else 0) == Times(events, r.batchId, Prices, p)
    && (p in b.finishes ==> b.finishes[p] != []) && (p in b.costs ==> b.costs[p] != [])
  }

  ghost predicate BookIsTheEvents(r: Recorder, b: Book, events: seq<Event>) {
    && (forall p :: Books(r, b, events, p))
    && b.knownCampaign == BatchSpend(events, r.batchId)
    && b.knownCase == CaseSpend(events, r.batchId, r.caseId)
  }

  /** What a scan that succeeds has checked. */
  ghost predicate Scannable(r: Recorder, events: seq<Event>) {
    CostsAreCertain(events, r.batchId) && forall p :: NeverTwice(events, r.batchId, Starts, p)
  }

  lemma {:induction false} ScannableSplits(r: Recorder, events: seq<Event>)
    requires events != []
    ensures var n := |events| - 1;
            Scannable(r, events) <==>
              && Scannable(r, events[..n])
              && (events[n].batchId == r.batchId && events[n].payload.CostRecorded? ==>
                    CostIsCertain(events[n].payload.cost))
              && (events[n].batchId == r.batchId && events[n].payload.ModelCallStarted? ==>
                    !Done(events[..n], r.batchId, Starts, events[n].payload.call.callId))
  {
    hide CostIsCertain, NeverTwice, Done;
    var n := |events| - 1;
    assert forall i :: 0 <= i < n ==> events[..n][i] == events[i];
    forall p
      ensures NeverTwice(events, r.batchId, Starts, p) <==>
                NeverTwice(events[..n], r.batchId, Starts, p)
                && (Does(events[n], r.batchId, Starts, p) ==> !Done(events[..n], r.batchId, Starts, p))
    {
      TwiceSplits(events, r.batchId, Starts, p);
    }
    assert CostsAreCertain(events, r.batchId) <==>
             CostsAreCertain(events[..n], r.batchId)
             && (events[n].batchId == r.batchId && events[n].payload.CostRecorded? ==>
                   CostIsCertain(events[n].payload.cost));
  }

  lemma {:induction false} DoneSplits(events: seq<Event>, batchId: string, act: Act, callId: string)
    requires events != []
    ensures Done(events, batchId, act, callId) <==>
              Done(events[..|events| - 1], batchId, act, callId) || Does(events[|events| - 1], batchId, act, callId)
  {
    hide Does;
    var n := |events| - 1;
    assert forall i :: 0 <= i < n ==> events[..n][i] == events[i];
  }

  lemma {:induction false} StepBooks(r: Recorder, b: Book, events: seq<Event>, p: string)
    requires events != [] && Books(r, b, events[..|events| - 1], p)
    requires BookStep(r, b, events[|events| - 1]).Ok?
    ensures Books(r, BookStep(r, b, events[|events| - 1]).value, events, p)
  {
    DoneSplits(events, r.batchId, Starts, p);
    hide Done, AmountKnown;
  }

  lemma {:induction false} StepIsFaithful(r: Recorder, b: Book, events: seq<Event>)
    requires events != [] && BookIsTheEvents(r, b, events[..|events| - 1])
    requires BookStep(r, b, events[|events| - 1]).Ok?
    ensures BookIsTheEvents(r, BookStep(r, b, events[|events| - 1]).value, events)
  {
    hide Books;
    var b' := BookStep(r, b, events[|events| - 1]).value;
    forall p ensures Books(r, b', events, p) {
      StepBooks(r, b, events, p);
    }
  }

  lemma {:induction false} StepSucceeds(r: Recorder, b: Book, e: Event)
    ensures BookStep(r, b, e).Ok? <==>
              && (e.batchId == r.batchId && e.payload.CostRecorded? ==> CostIsCertain(e.payload.cost))
              && (e.batchId == r.batchId && e.payload.ModelCallStarted? ==> e.payload.call.callId !in b.starts)
  {
  }

  lemma {:induction false} BookIff(r: Recorder, events: seq<Event>)
    ensures BookOf(r, events).Ok? <==> Scannable(r, events)
    ensures BookOf(r, events).Ok? ==> BookIsTheEvents(r, BookOf(r, events).value, events)
  {
    if events == [] {
      assert BookOf(r, events) == Ok(Book(map[], map[], map[], 0, 0));
    } else {
      var n := |events| - 1;
      BookIff(r, events[..n]);
      ScannableSplits(r, events);
      var before := BookOf(r, events[..n]);
      if before.Ok? {
        StepSucceeds(r, before.value, events[n]);
        if BookStep(r, before.value, events[n]).Ok? { StepIsFaithful(r, before.value, events); }
        hide BookStep, Scannable, CostIsCertain;
        assert events[n].payload.ModelCallStarted? ==>
            Books(r, before.value, events[..n], events[n].payload.call.callId);
      }
    }
  }

  // ---------------------------------------------------------------- the earlier calls

  lemma {:induction false} EndsAreFiled(r: Recorder, events: seq<Event>, i: nat)
    requires BookOf(r, events).Ok? && i < |events| && events[i].batchId == r.batchId
    requires events[i].payload.ModelCallFinished?
    ensures events[i].payload.callId in BookOf(r, events).value.finishes
    ensures events[i].payload.callFinish in BookOf(r, events).value.finishes[events[i].payload.callId]
  {
    var n := |events| - 1;
    if i < n {
      EndsAreFiled(r, events[..n], i);
      StepKeepsFinishes(r, BookOf(r, events[..n]).value, events[n], events[i].payload.callId,
                        events[i].payload.callFinish);
    } else {
      var b := BookOf(r, events[..n]).value;
      var old_ := if events[n].payload.callId in b.finishes then b.finishes[events[n].payload.callId] else [];
      assert (old_ + [events[n].payload.callFinish])[|old_|] == events[n].payload.callFinish;
    }
  }

  lemma {:induction false} StepKeepsFinishes(r: Recorder, b: Book, e: Event, p: string, f: CallFinish)
    requires BookStep(r, b, e).Ok? && p in b.finishes && f in b.finishes[p]
    ensures p in BookStep(r, b, e).value.finishes && f in BookStep(r, b, e).value.finishes[p]
  {
  }

  lemma {:induction false} FiledHasEvent(r: Recorder, events: seq<Event>, p: string, f: CallFinish) returns (i: nat)
    requires BookOf(r, events).Ok? && p in BookOf(r, events).value.finishes
    requires f in BookOf(r, events).value.finishes[p]
    ensures i < |events| && Does(events[i], r.batchId, Ends, p) && events[i].payload.callFinish == f
  {
    var n := |events| - 1;
    if Does(events[n], r.batchId, Ends, p) && events[n].payload.callFinish == f {
      i := n;
    } else {
      i := FiledHasEvent(r, events[..n], p, f);
    }
  }

  /** One call of the book, against its events. */
  lemma {:induction false} ClosedIff(r: Recorder, events: seq<Event>, p: string)
    requires BookOf(r, events).Ok?
    ensures var b := BookOf(r, events).value;
            IsClosed(events, r.batchId, p) <==>
              && p in b.finishes && |b.finishes[p]| == 1 && !b.finishes[p][0].usage.status.UnknownUsage?
              && p in b.costs && |b.costs[p]| == 1
  {
    BookIff(r, events);
    OnceDone(events, r.batchId, Ends, p);
    OnceDone(events, r.batchId, Prices, p);
    hide BookOf, DoneOnce, Times;
    var b := BookOf(r, events).value;
    assert Books(r, b, events, p);
    if p in b.finishes && |b.finishes[p]| == 1 {
      var f := b.finishes[p][0];
      forall i | 0 <= i < |events| && Does(events[i], r.batchId, Ends, p) ensures events[i].payload.callFinish == f {
        EndsAreFiled(r, events, i);
      }
      var k := FiledHasEvent(r, events, p, f);
    }
  }

  lemma {:induction false} NotDoneIff(r: Recorder, events: seq<Event>, p: string)
    requires BookOf(r, events).Ok?
    ensures var b := BookOf(r, events).value;
            && (Done(events, r.batchId, Starts, p) <==> p in b.starts)
            && (Done(events, r.batchId, Ends, p) <==> p in b.finishes)
            && (Done(events, r.batchId, Prices, p) <==> p in b.costs)
  {
    BookIff(r, events);
    NeverDone(events, r.batchId, Ends, p);
    NeverDone(events, r.batchId, Prices, p);
    hide BookOf, Done, Times;
    assert Books(r, BookOf(r, events).value, events, p);
  }

  lemma {:induction false} StartsMean(r: Recorder, events: seq<Event>, i: nat)
    requires BookOf(r, events).Ok? && i < |events| && events[i].batchId == r.batchId
    requires events[i].payload.ModelCallStarted?
    ensures var b := BookOf(r, events).value;
            var p := events[i].payload.call.callId;
            p in b.starts && b.starts[p] == events[i].caseId
  {
    BookSeesStart(r, events, i);
  }

  lemma {:induction false} OpenCallsMean(r: Recorder, b: Book, callId: string)
    ensures OpenCallsError(r, b, callId).None? <==>
              && callId !in b.starts && callId !in b.finishes && callId !in b.costs
              && (forall p :: p in b.starts ==> StartIsOver(r, b, p))
              && (forall p :: p in b.finishes ==> p in b.starts) && (forall p :: p in b.costs ==> p in b.starts)
  {
  }

  predicate StartIsOver(r: Recorder, b: Book, p: string)
    requires p in b.starts
  {
    && b.starts[p] != r.caseId
    && p in b.finishes && |b.finishes[p]| == 1 && !b.finishes[p][0].usage.status.UnknownUsage?
    && p in b.costs && |b.costs[p]| == 1
  }

  lemma {:induction false} StartIsOverIff(r: Recorder, events: seq<Event>, i: nat)
    requires BookOf(r, events).Ok? && i < |events| && events[i].batchId == r.batchId
    requires events[i].payload.ModelCallStarted?
    ensures var b := BookOf(r, events).value;
            var p := events[i].payload.call.callId;
            && p in b.starts
            && (StartIsOver(r, b, p) <==> events[i].caseId != r.caseId && IsClosed(events, r.batchId, p))
  {
    StartsMean(r, events, i);
    ClosedIff(r, events, events[i].payload.call.callId);
    hide BookOf, IsClosed;
  }

  lemma {:induction false} SettledIff(r: Recorder, events: seq<Event>, callId: string)
    ensures BatchIsSettled(r, events, callId)
            <==> BookOf(r, events).Ok? && OpenCallsError(r, BookOf(r, events).value, callId).None?
  {
    BookIff(r, events);
    hide BookOf, IsClosed, CostsAreCertain, NeverTwice, OpenCallsError, BookIsTheEvents, StartIsOver;
    if BookOf(r, events).Ok? {
      var b := BookOf(r, events).value;
      OpenCallsMean(r, b, callId);
      NotDoneIff(r, events, callId);
      forall p ensures (Done(events, r.batchId, Starts, p) <==> p in b.starts)
          && (Done(events, r.batchId, Ends, p) <==> p in b.finishes)
          && (Done(events, r.batchId, Prices, p) <==> p in b.costs)
      {
        NotDoneIff(r, events, p);
      }
      forall i | 0 <= i < |events| && events[i].batchId == r.batchId && events[i].payload.ModelCallStarted?
        ensures var p := events[i].payload.call.callId;
                && p in b.starts
                && (StartIsOver(r, b, p) <==> events[i].caseId != r.caseId && IsClosed(events, r.batchId, p))
      {
        StartIsOverIff(r, events, i);
      }
    }
  }

  lemma {:induction false} AffordableIff(r: Recorder, events: seq<Event>)
    requires BookOf(r, events).Ok?
    ensures var b := BookOf(r, events).value;
            Affordable(r, events) <==>
              b.knownCase + r.reserved <= r.caseCap && b.knownCampaign + r.reserved <= r.campaignCap
  {
    BookIff(r, events);
    hide BookOf, BatchSpend, CaseSpend, Books, Scannable;
  }

  // ---------------------------------------------------------------- the guard

  /** The guard admits a call exactly when the events make it admissible. */
  lemma {:induction false} AdmittedIffAdmissible(r: Recorder, events: seq<Event>, q: Request)
    ensures Refusal(r, events, q).None? <==> Admissible(r, events, q)
  {
    PresentableIff(r, q);
    OpenIff(r, events, q);
    SettledIff(r, events, q.callId);
    hide BookOf, OpenCallsError, MatchingStartError, AuthorizationError, WellFormed;
    hide Presentable, OpenFor, BatchIsSettled, Affordable;
    if BookOf(r, events).Ok? { AffordableIff(r, events); }
  }

  /** With everything else in order, the spend decides: refused for the spend limit exactly over a cap. */
  lemma {:induction false} SpendLimitExactly(r: Recorder, events: seq<Event>, q: Request)
    requires Presentable(r, q) && OpenFor(r, events, q) && BatchIsSettled(r, events, q.callId)
    ensures Refusal(r, events, q) == Some(SpendLimit) <==>
              || BatchSpend(events, r.batchId) + r.reserved > r.campaignCap
              || CaseSpend(events, r.batchId, r.caseId) + r.reserved > r.caseCap
    ensures Refusal(r, events, q).None? || Refusal(r, events, q) == Some(SpendLimit)
  {
    PresentableIff(r, q);
    OpenIff(r, events, q);
    SettledIff(r, events, q.callId);
    AffordableIff(r, events);
    hide BookOf, OpenCallsError, MatchingStartError, AuthorizationError, WellFormed;
    hide Presentable, OpenFor, BatchIsSettled, BatchSpend, CaseSpend;
  }

  // ---------------------------------------------------------------- the end of a call

  predicate TokensAreSound(u: Usage) {
    match u.status
    case UnknownUsage => u == Usage(UnknownUsage, None, None, None, None)
    case NotApplicable => u == Usage(NotApplicable, Some(0), Some(0), Some(0), Some(0))
    case _ =>
      && u.input.Some? && u.cached.Some? && u.output.Some? && u.total.Some?
      && u.cached.value <= u.input.value && u.total.value == u.input.value + u.output.value
      && u.total.value <= 2_147_483_647
  }

  predicate ClockIsSound(i: Interval) {
    var elapsed := i.completedAt - i.startedAt;
    0 <= elapsed && elapsed - 1000 <= i.durationMs <= elapsed + 1000
  }

  predicate StartsOwn(r: Recorder, e: Event, callId: string) {
    e.attemptId == r.attemptId && Does(e, r.batchId, Starts, callId)
  }

  /** One start of the call in this attempt, at the moment repeated and with what the recorder holds; no end yet. */
  ghost predicate CallIsOpen(r: Recorder, events: seq<Event>, callId: string, at: int) {
    && (forall i :: 0 <= i < |events| && events[i].attemptId == r.attemptId ==>
          !Does(events[i], r.batchId, Ends, callId))
    && exists i ::
         && 0 <= i < |events| && StartsOwn(r, events[i], callId)
         && (var call := events[i].payload.call;
             && call.startedAt == at && call.modelIdentity == r.modelIdentity && call.pricing == r.pricing
             && call.reserved == r.reserved)
         && forall k :: 0 <= k < |events| && StartsOwn(r, events[k], callId) ==> k == i
  }

  ghost predicate EndIsAdmissible(r: Recorder, events: seq<Event>, callId: string, f: CallFinish) {
    && Constructible(r) && ClockIsSound(f.interval) && TokensAreSound(f.usage)
    && (exists z :: AttemptIsOpen(r, events, z) && FrozenFor(r, z))
    && CallIsOpen(r, events, callId, f.interval.startedAt)
  }

  lemma {:induction false} SoundIff(r: Recorder, f: CallFinish)
    ensures Constructible(r) <==> WellFormed(r)
    ensures ClockIsSound(f.interval) <==> IntervalIsValid(f.interval)
    ensures TokensAreSound(f.usage) <==> UsageIsValid(f.usage)
  {
  }

  lemma {:induction false} FrozenIff(r: Recorder, events: seq<Event>)
    ensures (exists z :: AttemptIsOpen(r, events, z) && FrozenFor(r, z)) <==> MatchingStartError(r, events, None).None?
  {
    hide CurrentStarts, AttemptIsOpen, FrozenFor, MatchingStartError;
    if z :| AttemptIsOpen(r, events, z) && FrozenFor(r, z) {
      var st := OpenHasStart(r, events, z);
      MatchingMeans(r, events, None, st);
      OpenMeans(r, events, st);
    }
    if MatchingStartError(r, events, None).None? {
      var st := MatchedHasStart(r, events, None);
      MatchingMeans(r, events, None, st);
      OpenMeans(r, events, st);
    }
  }

  predicate IsOwnStart(r: Recorder, e: Event, callId: string) {
    Current(r, e) && e.payload.ModelCallStarted? && e.payload.call.callId == callId
  }

  ghost predicate SingleOwn(r: Recorder, events: seq<Event>, callId: string, call: CallStart) {
    exists i ::
      && 0 <= i < |events| && IsOwnStart(r, events[i], callId) && events[i].payload.call == call
      && forall k :: 0 <= k < |events| && IsOwnStart(r, events[k], callId) ==> k == i
  }

  lemma {:induction false} NoOwnStarts(r: Recorder, events: seq<Event>, callId: string)
    ensures OwnStarts(r, events, callId) == []
            <==> forall i :: 0 <= i < |events| ==> !IsOwnStart(r, events[i], callId)
  {
    if events != [] {
      var n := |events| - 1;
      NoOwnStarts(r, events[..n], callId);
      assert forall i :: 0 <= i < n ==> events[..n][i] == events[i];
    }
  }

  lemma {:induction false} OneOwnStart(r: Recorder, events: seq<Event>, callId: string, call: CallStart)
    ensures OwnStarts(r, events, callId) == [call] <==> SingleOwn(r, events, callId, call)
  {
    if events != [] {
      var n := |events| - 1;
      var old_ := events[..n];
      OneOwnStart(r, old_, callId, call);
      NoOwnStarts(r, old_, callId);
      assert OwnStarts(r, events, callId)
          == OwnStarts(r, old_, callId)
             + (if IsOwnStart(r, events[n], callId) then [events[n].payload.call] else []);
      hide IsOwnStart, OwnStarts;
      assert forall i :: 0 <= i < n ==> old_[i] == events[i];
      if IsOwnStart(r, events[n], callId) {
        if OwnStarts(r, old_, callId) == [] { assert OwnStarts(r, events, callId)[0] == events[n].payload.call; }
        if OwnStarts(r, old_, callId) != [] {
          var i :| 0 <= i < n && IsOwnStart(r, old_[i], callId);
          assert IsOwnStart(r, events[i], callId);
        }
      } else if SingleOwn(r, old_, callId, call) {
        var i :| 0 <= i < n && IsOwnStart(r, old_[i], callId) && old_[i].payload.call == call
          && forall k :: 0 <= k < n && IsOwnStart(r, old_[k], callId) ==> k == i;
        assert IsOwnStart(r, events[i], callId) && events[i].payload.call == call;
        assert forall k :: 0 <= k < |events| && IsOwnStart(r, events[k], callId) ==>
                 k < n && IsOwnStart(r, old_[k], callId);
      }
    }
  }

  /** What the guard asks of the ledger once the attempt is known to be open. */
  predicate OwnCallIsOpen(r: Recorder, events: seq<Event>, callId: string, at: int) {
    var starts := OwnStarts(r, events, callId);
    && |starts| == 1 && starts[0].startedAt == at
    && starts[0].modelIdentity == r.modelIdentity && starts[0].pricing == r.pricing && starts[0].reserved == r.reserved
    && forall i :: 0 <= i < |events| && Current(r, events[i]) && events[i].payload.ModelCallFinished? ==>
         events[i].payload.callId != callId
  }

  lemma {:induction false} CallIsOpenIff(r: Recorder, events: seq<Event>, callId: string, at: int)
    requires forall i :: 0 <= i < |events| && events[i].attemptId == r.attemptId ==> Current(r, events[i])
    ensures CallIsOpen(r, events, callId, at) <==> OwnCallIsOpen(r, events, callId, at)
  {
    hide OwnStarts;
    assert forall i :: 0 <= i < |events| ==> (StartsOwn(r, events[i], callId) <==> IsOwnStart(r, events[i], callId));
    if CallIsOpen(r, events, callId, at) {
      var i :| 0 <= i < |events| && StartsOwn(r, events[i], callId)
        && forall k :: 0 <= k < |events| && StartsOwn(r, events[k], callId) ==> k == i;
      OneOwnStart(r, events, callId, events[i].payload.call);
    }
    if OwnCallIsOpen(r, events, callId, at) {
      OneOwnStart(r, events, callId, OwnStarts(r, events, callId)[0]);
    }
  }

  lemma {:induction false} FinishRefusalMeans(r: Recorder, events: seq<Event>, callId: string, f: CallFinish)
    ensures FinishRefusal(r, events, callId, f).None? <==>
              && WellFormed(r) && IntervalIsValid(f.interval) && UsageIsValid(f.usage)
              && MatchingStartError(r, events, None).None? && OwnCallIsOpen(r, events, callId, f.interval.startedAt)
  {
    hide WellFormed, IntervalIsValid, UsageIsValid, MatchingStartError, OwnStarts;
  }

  /** The guard admits the end of a call exactly when the events leave the call open in an open attempt. */
  lemma {:induction false} EndAdmittedIffAdmissible(r: Recorder, events: seq<Event>, callId: string, f: CallFinish)
    ensures FinishRefusal(r, events, callId, f).None? <==> EndIsAdmissible(r, events, callId, f)
  {
    FinishRefusalMeans(r, events, callId, f);
    SoundIff(r, f);
    FrozenIff(r, events);
    hide FinishRefusal, Constructible, WellFormed, IntervalIsValid, UsageIsValid, OwnCallIsOpen, CallIsOpen,
         ClockIsSound;
    hide TokensAreSound;
    if MatchingStartError(r, events, None).None? {
      var st := MatchedHasStart(r, events, None);
      MatchingMeans(r, events, None, st);
      CallIsOpenIff(r, events, callId, f.interval.startedAt);
    }
  }
}
