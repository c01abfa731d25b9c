/**
 * What the funds of a call do (crates/app/stf/src/invoker.rs): each asset account is told, in order,
 * by the payer, to transfer its amount to the account that is called; the first that fails stops them.
 * Asset accounts that report what they are told make this visible.
 */
module Payments {
  import opened Types
  import opened Gas
  import opened ExecState
  import opened Programs
  import opened Snapshot
  import opened CallInduction
  import opened CallLaws

  /** Code that reports its sender and the body of its request in an event, and returns what that gave. */
  ghost predicate Reports(code: AccountCode) {
    forall env, request :: ReportsOnce(code.execute(env, request), env.sender, request.body)
  }

  ghost predicate ReportsOnce(p: Program, sender: AccountId, body: Bytes) {
    p.next([]) == Emit(sender, body) && forall r: Reply :: p.next([r]) == Return(r)
  }

  ghost predicate Reporter(w: World, o: Overlay, account: AccountId) {
    exists code :: Has(w, o, account, code) && Reports(code)
  }

  predicate Reportable(body: Bytes, events: nat) {
    |body| <= MAX_EVENT_CONTENT_SIZE && events < MAX_EVENTS_PER_EXECUTION
  }

  /** The same state but for events and what was observed. */
  predicate SameStorage(s: Snap, t: Snap) {
    t.overlay == s.overlay && t.unique == s.unique
  }

  lemma ReporterLaw(w: World, x: Ctx, account: AccountId, request: Request, s: Snap, m: Meter)
    requires x.depth < MAX_CALL_DEPTH && Reporter(w, s.overlay, account)
    ensures var o := Dispatch(w, x, account, request, [], s, m);
            && SameStorage(s, o.snap) && o.meter == m
            && (o.reply.Ok? <==> Reportable(request.body, |s.events|))
            && o.snap.events == s.events + if o.reply.Ok? then [Event(account, x.whoami, request.body)] else []
  {
    hide Dispatch, Run, Has;
    var code :| Has(w, s.overlay, account, code) && Reports(code);
    var y, t := CalleeCtx(x, account), AtEntry(w, s, account);
    var p := code.execute(CalleeEnv(x, account), request);
    CalleeRuns(w, x, account, request, [], code, s, m);
    assert ReportsOnce(p, x.whoami, request.body);
    var action := Emit(x.whoami, request.body);
    OneStep(w, y, p, action, Perform(w, y, action, t, m).reply, t, m);
  }

  /** What the asset accounts report of the funds of a call. */
  function Receipts(w: World, payer: AccountId, to: AccountId, funds: seq<Asset>): seq<Event> {
    seq(|funds|, i requires 0 <= i < |funds| => Event(funds[i].assetId, payer, w.transfer(to, funds[i].amount).body))
  }

  ghost predicate ReportingAssets(w: World, o: Overlay, funds: seq<Asset>) {
    forall i :: 0 <= i < |funds| ==> Reporter(w, o, funds[i].assetId)
  }

  predicate AllReportable(w: World, to: AccountId, funds: seq<Asset>, events: nat) {
    && events + |funds| <= MAX_EVENTS_PER_EXECUTION
    && forall i :: 0 <= i < |funds| ==> |w.transfer(to, funds[i].amount).body| <= MAX_EVENT_CONTENT_SIZE
  }

  /** One more asset account is told, and then the rest. */
  lemma FirstTransfer(w: World, x: Ctx, to: AccountId, funds: seq<Asset>, s: Snap, m: Meter)
    requires x.depth < MAX_CALL_DEPTH && funds != []
    ensures var o := Dispatch(w, x, funds[0].assetId, w.transfer(to, funds[0].amount), [], s, m);
            TransferEach(w, x, to, funds, s, m) == if o.reply.Err? then o else TransferEach(w, x, to, funds[1..], o.snap, o.meter)
  {
    hide Dispatch;
  }

  /** The first transfers have been made: their asset accounts reported them, and the others are still to be told. */
  lemma {:induction false} TransfersReach(w: World, x: Ctx, to: AccountId, funds: seq<Asset>, k: nat, s: Snap, m: Meter)
    returns (u: Snap)
    requires x.depth < MAX_CALL_DEPTH && k <= |funds|
    requires ReportingAssets(w, s.overlay, funds[..k]) && AllReportable(w, to, funds[..k], |s.events|)
    ensures SameStorage(s, u) && u.events == s.events + Receipts(w, x.whoami, to, funds[..k])
    ensures TransferEach(w, x, to, funds, s, m) == TransferEach(w, x, to, funds[k..], u, m)
    decreases k
  {
    hide Dispatch, TransferEach, Reporter;
    if k == 0 {
      assert funds[0..] == funds;
      return s;
    }
    var first := funds[..k][0];
    assert first == funds[0];
    FirstTransfer(w, x, to, funds, s, m);
    ReporterLaw(w, x, first.assetId, w.transfer(to, first.amount), s, m);
    var o := Dispatch(w, x, first.assetId, w.transfer(to, first.amount), [], s, m);
    assert funds[1..][..k - 1] == funds[..k][1..] && funds[1..][k - 1..] == funds[k..];
    u := TransfersReach(w, x, to, funds[1..], k - 1, o.snap, m);
    assert Receipts(w, x.whoami, to, funds[..k]) == Receipts(w, x.whoami, to, [first]) + Receipts(w, x.whoami, to, funds[..k][1..]);
  }

  /** A transfer that fails is the last: its error is the outcome, and no asset account after it was told anything. */
  lemma TransfersStop(w: World, x: Ctx, to: AccountId, funds: seq<Asset>, k: nat, s: Snap, m: Meter)
    returns (u: Snap)
    requires x.depth < MAX_CALL_DEPTH && k < |funds| && to != StorageAccount()
    requires ReportingAssets(w, s.overlay, funds[..k]) && AllReportable(w, to, funds[..k], |s.events|)
    ensures SameStorage(s, u) && u.events == s.events + Receipts(w, x.whoami, to, funds[..k])
    ensures var o := Dispatch(w, x, funds[k].assetId, w.transfer(to, funds[k].amount), [], u, m);
            o.reply.Err? ==> Transfers(w, x, to, funds, s, m) == o
  {
    hide Dispatch, TransferEach, Reporter;
    u := TransfersReach(w, x, to, funds, k, s, m);
    FirstTransfer(w, x, to, funds[k..], u, m);
  }

  /** When all asset accounts report, the transfers succeed exactly when all reports can be made, and then all are. */
  lemma {:induction false} TransfersReport(w: World, x: Ctx, to: AccountId, funds: seq<Asset>, s: Snap, m: Meter)
    requires x.depth < MAX_CALL_DEPTH && ReportingAssets(w, s.overlay, funds) && |s.events| <= MAX_EVENTS_PER_EXECUTION
    ensures var o := TransferEach(w, x, to, funds, s, m);
            && SameStorage(s, o.snap) && o.meter == m
            && (o.reply.Ok? <==> AllReportable(w, to, funds, |s.events|))
            && (o.reply.Ok? ==> o.reply == Ok(Empty) && o.snap.events == s.events + Receipts(w, x.whoami, to, funds))
    decreases |funds|
  {
    hide Dispatch, Reporter;
    if funds != [] {
      hide TransferEach;
      FirstTransfer(w, x, to, funds, s, m);
      ReporterLaw(w, x, funds[0].assetId, w.transfer(to, funds[0].amount), s, m);
      var o := Dispatch(w, x, funds[0].assetId, w.transfer(to, funds[0].amount), [], s, m);
      if o.reply.Ok? {
        TransfersReport(w, x, to, funds[1..], o.snap, m);
        AllReportableFront(w, to, funds, |s.events|);
        assert Receipts(w, x.whoami, to, funds) == Receipts(w, x.whoami, to, [funds[0]]) + Receipts(w, x.whoami, to, funds[1..]);
      }
    }
  }

  lemma AllReportableFront(w: World, to: AccountId, funds: seq<Asset>, events: nat)
    requires funds != []
    ensures AllReportable(w, to, funds, events) <==>
            Reportable(w.transfer(to, funds[0].amount).body, events) && AllReportable(w, to, funds[1..], events + 1)
  {
    assert forall i :: 1 <= i < |funds| ==> funds[i] == funds[1..][i - 1];
  }

  // ---------------------------------------------------------------------------------------
  // Whole calls

  ghost function EventsGrow(): Relation {
    (s: Snap, m: Meter, t: Snap, n: Meter) => s.events <= t.events
  }

  lemma EventsGrowIsClosed(w: World)
    ensures Closed(w, EventsGrow())
  {
    var rel := EventsGrow();
    forall s, key, entry, effect, m ensures rel(s, m, Write(s, key, entry, effect).snap, m) {
    }
    forall x, name, data, s, m ensures rel(s, m, EmitEvent(x, name, data, s, m).snap, m) {
    }
    forall x, s, m ensures rel(s, m, IssueId(x, s, m).snap, m) {
    }
    forall s, account, code, m ensures rel(s, m, Entered(s, account, code), m) {
    }
  }

  /**
   * After a successful call, whatever the callee did, the asset accounts have reported the funds, one
   * by one and in order: told by the caller, for the account that was called.
   */
  lemma PaymentsArrive(w: World, x: Ctx, to: AccountId, request: Request, funds: seq<Asset>, s: Snap, m: Meter)
    requires x.depth <= MAX_CALL_DEPTH && ReportingAssets(w, s.overlay, funds) && |s.events| <= MAX_EVENTS_PER_EXECUTION
    requires DoExec(w, x, to, request, funds, s, m).reply.Ok?
    ensures s.events + Receipts(w, x.whoami, to, funds) <= DoExec(w, x, to, request, funds, s, m).snap.events
  {
    hide Dispatch, TransferEach, Reporter, Closed;
    TransfersReport(w, x, to, funds, s, m);
    var t := Transfers(w, x, to, funds, s, m);
    EventsGrowIsClosed(w);
    DispatchIn(EventsGrow(), w, x, to, request, funds, t.snap, t.meter);
  }

  /** A call whose funds cannot all be paid fails, and nothing of it stays but gas. */
  lemma UnpaidCallFails(w: World, x: Ctx, to: AccountId, request: Request, funds: seq<Asset>, s: Snap, m: Meter)
    requires x.depth < MAX_CALL_DEPTH && ReportingAssets(w, s.overlay, funds) && |s.events| <= MAX_EVENTS_PER_EXECUTION
    requires !AllReportable(w, to, funds, |s.events|)
    ensures var o := DoExec(w, x, to, request, funds, s, m); o.reply.Err? && o.snap == s.(full := o.snap.full)
  {
    hide Dispatch, TransferEach, Reporter;
    TransfersReport(w, x, to, funds, s, m);
  }
}
