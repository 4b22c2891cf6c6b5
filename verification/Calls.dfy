/** The serial machine is the services: each step, played by the methods, leaves the tables `Next` says. */
module Calls {
  import opened Common
  import opened Schema
  import opened PlanItems
  import opened Ledger
  import opened Steps
  import Delegation
  import Work
  import Approval

  method PlayWork(session: Session, s: Step)
    requires Inv(session.Tables()) && (s.CreateWork? || s.MoveWork?)
    modifies session
    ensures session.Tables() == Next(old(session.Tables()), s)
  {
    hide Inv, Work.CreateOutcome, Work.MoveOutcome, Work.Continues, Work.Known, Work.WithWork, Work.Moved;
    Tables(session.Tables());
    match s {
      case CreateWork(org, kind, title, description, createdBy, parent, owner, due, draw) =>
        if parent.None? || parent.value in session.works {
          var up := if parent.Some? then Some(session.works[parent.value]) else None;
          var w := Work.CreateWorkItem(session, org, kind, title, description, createdBy, up, owner, due, draw);
        }
      case MoveWork(work, to, actor) =>
        if work in session.works {
          var changed := Work.Transition(session, work, to, actor);
        }
    }
  }

  method PlayEdit(session: Session, s: Step)
    requires Inv(session.Tables()) && Edits(s)
    modifies session
    ensures session.Tables() == Next(old(session.Tables()), s)
  {
    hide Inv, Consistent, WorksOk, Work.EventsOk, SortsDistinct, PlanItems.Keyed, ParentsFirst, Delegation.Added,
      Delegation.Updated, Delegation.Removed, Delegation.EditedAs, InOrgIfAny;
    Tables(session.Tables());
    if s.plan in session.plans {
      match s {
        case AddItem(plan, n, id) =>
          var item := Delegation.AddItem(session, plan, n, id);
        case UpdateItem(plan, item, e) =>
          if item in session.items {
            var edited := Delegation.UpdateItem(session, plan, item, e);
          }
        case RemoveItem(plan, item) =>
          if item in session.items {
            var removed := Delegation.RemoveItem(session, plan, item);
          }
      }
    }
  }

  method PlayPlan(session: Session, s: Step)
    requires Inv(session.Tables()) && (s.CreatePlan? || s.Submit?)
    modifies session
    ensures session.Tables() == Next(old(session.Tables()), s)
  {
    hide Inv, WorksOk, Work.EventsOk, SortsDistinct, PlanItems.Keyed, ParentsFirst, Delegation.CreatePlanOutcome,
      Delegation.Submitted, Delegation.Ready, MembersOk, ItemsOk, OneOpenPerScope, PlanCodesUnique;
    Tables(session.Tables());
    match s {
      case CreatePlan(scope, createdBy, draw) =>
        if scope in session.works {
          var plan := Delegation.CreatePlan(session, session.works[scope], createdBy, draw);
        }
      case Submit(plan, now) =>
        if plan in session.plans {
          assert PlanOk(session.members, session.works, session.plans[plan]);
          var sent := Delegation.SubmitPlan(session, plan, now);
        }
    }
  }

  method PlayDecision(session: Session, s: Step)
    requires Inv(session.Tables()) && s.Decide?
    modifies session
    ensures session.Tables() == Next(old(session.Tables()), s)
  {
    hide Inv, Consistent, WorksOk, Work.EventsOk, SortsDistinct, PlanItems.Keyed, ParentsFirst, Approval.Goes,
      Approval.WritesOf, Approval.Apply, Approval.Decidable, Approval.Answers, Approval.Reported;
    Tables(session.Tables());
    Approval.PlansAreDecidable(session.Tables(), s.plan);
    var out;
    if s.decision == APPROVE {
      out := Approval.ApprovePlan(session, RequestOf(s));
    } else {
      out := Approval.RejectPlan(session, RequestOf(s));
    }
  }

  /** One step of the machine as the caller plays it, on tables in order; `Outside` is nobody's call. */
  method Play(session: Session, s: Step)
    requires Inv(session.Tables()) && !s.Outside?
    modifies session
    ensures session.Tables() == Next(old(session.Tables()), s)
    ensures Inv(session.Tables())
  {
    hide Inv, Next;
    NextKeepsInv(session.Tables(), s);
    if s.CreateWork? || s.MoveWork? {
      PlayWork(session, s);
    } else if Edits(s) {
      PlayEdit(session, s);
    } else if s.Decide? {
      PlayDecision(session, s);
    } else {
      PlayPlan(session, s);
    }
  }
}
