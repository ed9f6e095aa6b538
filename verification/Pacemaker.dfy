/** The view clock: timeout and view-change collectors, and the events for entered views. */
module Pacemakers {
  import opened Types
  import opened Collectors
  import opened QuorumSets

  datatype TMO = TMO(view: View, nodeId: NodeId, highQC: QC)
  datatype VMO = VMO(view: View, nodeId: NodeId, highQC: QC)

  /** The pacemaker as a value; `events` is everything sent on the new-view channel. */
  datatype Clock = Clock(n: nat, curView: View, events: seq<View>, timeouts: Tally<View, TMO>, viewChanges: Tally<View, VMO>)

  function Advance(p: Clock, view: View): Clock {
    if view < p.curView then p else p.(curView := view + 1, events := p.events + [view + 1])
  }

  /** A stale timeout message is not counted. */
  function OnTmo(p: Clock, tmo: TMO): Clock {
    if tmo.view < p.curView then p
    else p.(timeouts := Collect(p.timeouts, PacemakerThreshold(p.n), tmo.view, tmo.nodeId, tmo))
  }

  predicate BuildsTC(p: Clock, tmo: TMO) {
    tmo.view >= p.curView && Reports(p.timeouts, PacemakerThreshold(p.n), tmo.view, tmo.nodeId, tmo)
  }

  function OnVmo(p: Clock, vmo: VMO): Clock {
    if vmo.view < p.curView then p
    else p.(viewChanges := Collect(p.viewChanges, PacemakerThreshold(p.n), vmo.view, vmo.nodeId, vmo))
  }

  predicate BuildsVC(p: Clock, vmo: VMO) {
    vmo.view >= p.curView && Reports(p.viewChanges, PacemakerThreshold(p.n), vmo.view, vmo.nodeId, vmo)
  }

  /** Emitted views increase strictly, and the last one is the current view. */
  ghost predicate EventsOk(events: seq<View>, curView: View) {
    && (forall i, j :: 0 <= i < j < |events| ==> events[i] < events[j])
    && (if events == [] then curView == 0 else events[|events| - 1] == curView)
  }

  /** The clock once a timeout message has been counted. */
  function AfterTmo(p: Clock, tmo: TMO): Clock {
    if BuildsTC(p, tmo) then Advance(OnTmo(p, tmo), tmo.view) else OnTmo(p, tmo)
  }

  /** The clock once the leader of the next view has counted a view-change message. */
  function AfterVmo(p: Clock, vmo: VMO): Clock {
    if BuildsVC(p, vmo) then Advance(OnVmo(p, vmo), vmo.view) else OnVmo(p, vmo)
  }

  /** A message of this view was counted: a stale one changes nothing; any other leaves the view and announces the next
      exactly if it brings the number of senders to the threshold, and no other view is entered. */
  ghost predicate Ticks(p: Clock, p': Clock, view: View, before: nat, after: nat) {
    && p'.n == p.n
    && (view < p.curView ==> p' == p)
    && (view >= p.curView && before < PacemakerThreshold(p.n) <= after ==> p'.curView == view + 1 && p'.events == p.events + [view + 1])
    && (view >= p.curView && !(before < PacemakerThreshold(p.n) <= after) ==> p'.curView == p.curView && p'.events == p.events)
  }

  /** What a timeout message does to the clock: it is counted unless stale, and the view is left exactly at the crossing. */
  lemma TmoMeaning(p: Clock, tmo: TMO)
    ensures var p' := AfterTmo(p, tmo);
      && p'.viewChanges == p.viewChanges
      && Ticks(p, p', tmo.view, Count(p.timeouts, tmo.view), Count(p'.timeouts, tmo.view))
      && (tmo.view >= p.curView ==> p'.timeouts == Collect(p.timeouts, PacemakerThreshold(p.n), tmo.view, tmo.nodeId, tmo))
  {
  }

  /** The same for a view-change message at the leader of the next view. */
  lemma VmoMeaning(p: Clock, vmo: VMO)
    ensures var p' := AfterVmo(p, vmo);
      && p'.timeouts == p.timeouts
      && Ticks(p, p', vmo.view, Count(p.viewChanges, vmo.view), Count(p'.viewChanges, vmo.view))
      && (vmo.view >= p.curView ==> p'.viewChanges == Collect(p.viewChanges, PacemakerThreshold(p.n), vmo.view, vmo.nodeId, vmo))
  {
  }

  lemma AdvanceEvents(p: Clock, view: View)
    requires EventsOk(p.events, p.curView)
    ensures EventsOk(Advance(p, view).events, Advance(p, view).curView)
    ensures Advance(p, view).curView > view && Advance(p, view).curView >= p.curView
  {
    var q := Advance(p, view);
    if view >= p.curView {
      forall i | 0 <= i < |p.events| ensures p.events[i] <= p.curView {
        assert i < |p.events| - 1 ==> p.events[i] < p.events[|p.events| - 1];
      }
    }
  }

  class TimeoutController {
    const n: nat
    var timeouts: Tally<View, TMO>

    constructor (n: nat)
      ensures this.n == n && timeouts == map[]
    {
      this.n, this.timeouts := n, map[];
    }

    predicate SuperMajority(view: View)
      reads this
    {
      Count(timeouts, view) > n * 2 / 3
    }

    /** Returns the view of a timeout certificate exactly when the collector reports. */
    method AddTmo(tmo: TMO) returns (tc: Option<View>)
      modifies this
      ensures timeouts == Collect(old(timeouts), PacemakerThreshold(n), tmo.view, tmo.nodeId, tmo)
      ensures tc == if Reports(old(timeouts), PacemakerThreshold(n), tmo.view, tmo.nodeId, tmo) then Some(tmo.view) else None
    {
      if SuperMajority(tmo.view) {
        return None;
      }
      if tmo.view !in timeouts {
        timeouts := timeouts[tmo.view := map[]];
      }
      var senders: map<NodeId, TMO> := timeouts[tmo.view][tmo.nodeId := tmo];
      timeouts := timeouts[tmo.view := senders];
      assert timeouts == Record(old(timeouts), tmo.view, tmo.nodeId, tmo);
      return if SuperMajority(tmo.view) then Some(tmo.view) else None;
    }
  }

  class ViewChangeController {
    const n: nat
    var timeouts: Tally<View, VMO>

    constructor (n: nat)
      ensures this.n == n && timeouts == map[]
    {
      this.n, this.timeouts := n, map[];
    }

    predicate SuperMajority(view: View)
      reads this
    {
      Count(timeouts, view) > n * 2 / 3
    }

    /** Returns the view of a view-change certificate exactly when the collector reports. */
    method AddVmo(vmo: VMO) returns (vc: Option<View>)
      modifies this
      ensures timeouts == Collect(old(timeouts), PacemakerThreshold(n), vmo.view, vmo.nodeId, vmo)
      ensures vc == if Reports(old(timeouts), PacemakerThreshold(n), vmo.view, vmo.nodeId, vmo) then Some(vmo.view) else None
    {
      if SuperMajority(vmo.view) {
        return None;
      }
      if vmo.view !in timeouts {
        timeouts := timeouts[vmo.view := map[]];
      }
      var senders: map<NodeId, VMO> := timeouts[vmo.view][vmo.nodeId := vmo];
      timeouts := timeouts[vmo.view := senders];
      assert timeouts == Record(old(timeouts), vmo.view, vmo.nodeId, vmo);
      return if SuperMajority(vmo.view) then Some(vmo.view) else None;
    }
  }

  class Pacemaker {
    var curView: View
    var newViews: seq<View>
    const timeoutController: TimeoutController
    const viewChangeController: ViewChangeController

    ghost predicate Valid()
      reads this, timeoutController, viewChangeController
    {
      timeoutController.n == viewChangeController.n && EventsOk(newViews, curView)
    }

    ghost function Abs(): Clock
      reads this, timeoutController, viewChangeController
    {
      Clock(timeoutController.n, curView, newViews, timeoutController.timeouts, viewChangeController.timeouts)
    }

    constructor (n: nat)
      ensures Valid() && Abs() == Clock(n, 0, [], map[], map[])
      ensures fresh(timeoutController) && fresh(viewChangeController)
    {
      curView, newViews := 0, [];
      timeoutController := new TimeoutController(n);
      viewChangeController := new ViewChangeController(n);
    }

    method ProcessRemoteTmo(tmo: TMO) returns (tc: Option<View>)
      requires Valid()
      modifies timeoutController
      ensures Valid() && Abs() == OnTmo(old(Abs()), tmo)
      ensures tc == if BuildsTC(old(Abs()), tmo) then Some(tmo.view) else None
      ensures tmo.view < curView ==> tc.None? && timeoutController.timeouts == old(timeoutController.timeouts)
      ensures tmo.view >= curView ==>
        && timeoutController.timeouts == Collect(old(timeoutController.timeouts), PacemakerThreshold(timeoutController.n), tmo.view, tmo.nodeId, tmo)
        && (tc.Some? <==> Reports(old(timeoutController.timeouts), PacemakerThreshold(timeoutController.n), tmo.view, tmo.nodeId, tmo))
    {
      if tmo.view < curView {
        return None;
      }
      tc := timeoutController.AddTmo(tmo);
    }

    method ProcessRemoteVmo(vmo: VMO) returns (vc: Option<View>)
      requires Valid()
      modifies viewChangeController
      ensures Valid() && Abs() == OnVmo(old(Abs()), vmo)
      ensures vc == if BuildsVC(old(Abs()), vmo) then Some(vmo.view) else None
      ensures vmo.view < curView ==> vc.None? && viewChangeController.timeouts == old(viewChangeController.timeouts)
      ensures vmo.view >= curView ==>
        && viewChangeController.timeouts ==
             Collect(old(viewChangeController.timeouts), PacemakerThreshold(viewChangeController.n), vmo.view, vmo.nodeId, vmo)
        && (vc.Some? <==> Reports(old(viewChangeController.timeouts), PacemakerThreshold(viewChangeController.n), vmo.view, vmo.nodeId, vmo))
    {
      if vmo.view < curView {
        return None;
      }
      vc := viewChangeController.AddVmo(vmo);
    }

    /** Moves past `view`, unless it lies behind, and announces the entered view. */
    method AdvanceView(view: View)
      requires Valid()
      modifies this
      ensures Valid() && Abs() == Advance(old(Abs()), view)
      ensures view < old(curView) ==> curView == old(curView) && newViews == old(newViews)
      ensures view >= old(curView) ==> curView == view + 1 && newViews == old(newViews) + [view + 1]
    {
      AdvanceEvents(Abs(), view);
      if view < curView {
        return;
      }
      curView := view + 1;
      newViews := newViews + [view + 1];
    }
  }
}
