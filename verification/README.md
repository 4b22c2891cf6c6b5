# Jenie's domain layer, verified

Jenie turns delegation plans into assigned work.  This project models its domain services in Dafny as
transactions over a handful of tables and proves what the services promise about them: an approved plan
becomes exactly the tasks it proposed, exactly the people it named are told, once, and there is a record of
who decided what, whatever else happens before, after or at the same time.

`dafny verify dfyconfig.toml` checks everything.

## How the model is built

- **Tables.** `Schema.Db` is the value of all tables; `Schema.Session` is the unit of work the services are
  handed, a class whose fields are the tables.  Services that write are methods on a session; each is proved
  equal to a function of the old tables, and what the services promise is proved about those functions.  The
  lemmas named `..Says` state the new rows and the answer field by field, without those functions.
- **Constraints** are guards.  A row that breaks a foreign key, a NOT NULL or a unique index ends the call
  with `IntegrityError`.  `Schema.Consistent` is the constraints as a predicate; `Ledger.Inv` adds how
  approvals, audit entries, created work, event logs and messages agree.
- **Exceptions** are `Result` values, and a raised exception leaves the tables as they were (`Session.Rollback`).
- **Randomness** is an argument: a `Draw` holds the primary key an insert will use and the ten short codes its
  allocation loop would try.  Clocks are arguments too.
- **Serial runs** (`Steps`, `Runs`, `Trail`, `ItemLists`): every service call is one atomic `Step`; memberships
  and addresses may change arbitrarily between steps as long as nobody is deleted or moved to another
  organization.  Claims about versions, history, authority and conservation are about all runs from an empty
  database.  `Calls.Play` plays a step with the methods and leaves the tables the machine says.
- **Actors** are values, as the services take them: whoever the caller loaded, from the tables of that moment or an
  earlier one.  `Trail.Loaded` says that of a run.
- **Interleaved runs** (`Interleaving`): any number of approve and reject transactions, cut up at the row lock,
  the re-read, the check, each task created and the commit, in any order, each free to abort anywhere.

| file | what it holds |
|---|---|
| `Common.dfy` | options, results, errors, code draws, the string operations used |
| `Schema.dfy` | rows, constraints, the session |
| `Walk.dfy` | the guarded recursive query both hierarchies run, and its exact meaning |
| `OrgGraph.dfy`, `Permissions.dfy` | the organization, scopes, and the rules decided by them |
| `Work.dfy`, `WorkTree.dfy` | work items, their lifecycle, history and tree |
| `Notifications.dfy` | queued messages |
| `PlanItems.dfy`, `Delegation.dfy` | plan items as one ordered list; drafting and submission |
| `Approval.dfy` | the two decision transactions |
| `Ledger.dfy`, `Steps.dfy`, `Calls.dfy` | the cross-table invariant, the proof that every call keeps it, and that the serial machine's steps are the calls |
| `Runs.dfy`, `Trail.dfy`, `ItemLists.dfy` | theorems about whole runs |
| `Progress.dfy` | pending plans can be approved; a run in which one is, and one that escapes the scope check |
| `Interleaving.dfy`, `Races.dfy` | concurrent decisions: what always holds, and what can happen |
| `Addresses.dfy`, `Respellings.dfy`, `Identities.dfy` | canonical addresses, what they forget, and the index keyed by them |

## What turned out not to hold as stated

- Scopes are the full transitive closure only while no simple chain of managers exceeds `MAX_DEPTH`
  (`OrgGraph.ScopesAreClosuresIff`, an equivalence); `OrgGraph.DeepChainIsCut` is a line of 34 people whose
  last member is under the first and outside the first's scope.
- "You may only propose work for yourself and the people beneath you" is checked at submission and never again.
  The tasks of an approved plan obey it if and only if the plan's items did at the moment of approval
  (`Trail.ApprovedProperlyIff`), as they do when it is approved at the version submitted.
  `Progress.SomeRunEscapesTheScope` is a run of seven calls in which a waiting item is reassigned to the
  creator's manager and approved: its task is owned outside the scope that was checked.
  `Trail.LateEditIsNotRechecked` has it for every late edit.
- Normalising is idempotent exactly when no second URI prefix follows the first (`Addresses.IdempotentIff`):
  `sms:sms:a@b.c` normalises to `sms:a@b.c`, which normalises to `a@b.c` (`Addresses.PrefixedTwice`).
- A manager above has all the authority scope gives those below, with one exception: nobody below superadmin
  may hand a responsibility to themselves (`Permissions.AuthorityFollowsTheChain`, an equivalence).  It takes two
  people who are each above the other, which no constraint forbids (`Permissions.CircleBreaksTheChain`).
- Nesting between plan items is allowed by the schema and never survives approval: a plan that has any is always
  refused (`Runs.NestedIsNeverFlattened`).

## Model

| member | source | states |
|---|---|---|
| `Approval.ApprovePlan` | backend/app/domain/delegation/approval.py:85-202 | everything written, or nothing; a decision that takes effect is `Reported`: on the rows themselves, the caller is handed the plan's new row, the one new approval, the new messages and, in the order of the audit entry's ids, exactly the rows of the created tasks; otherwise the existing decision, or an error explained by the state it was raised in |
| `Approval.OutcomeSays` | backend/app/domain/delegation/approval.py:117-202 | what a decision writes, field by field: one approval at the version read, one audit entry with both snapshots, the plan closed and its version moved, no other row touched, each owner told in order and then a creator who did not decide |
| `Approval.CheckSays` | backend/app/domain/delegation/approval.py:97-112 | the answer of the row checks for every row and request: decided already, not pending, changed since it was shown, not entitled, or proceed, in that order |
| `Approval.RejectPlan` | backend/app/domain/delegation/approval.py:205-281 | the same for a rejection, `Reported` in the same way with no work created |
| `Approval.CarryOut` | backend/app/domain/delegation/approval.py:114-202 | past the row checks, an approval goes through exactly when every item is flat and assigned, the scope can take work and the draws are unused, and answers with the writes `OutcomeSays` describes; otherwise the transaction is rolled back |
| `Approval.Materialise` | backend/app/domain/delegation/approval.py:284-318 | one task per item in order, exactly when the proposal is flat and its scope alive; otherwise the structural, code or constraint error that stopped it |
| `Approval.LoopTurn` | backend/app/domain/delegation/approval.py:301-316 | a turn of the loop adds the next item's task or ends the call; a nested item finds its parent's TASK in the map and is refused |
| `Approval.PlansAreDecidable` | backend/app/domain/delegation/approval.py:115-117 | in a consistent database a plan's items are tasks of its organization and each parent is listed before its child, so `by_plan_item` is never missing a parent |
| `Approval.NotifyAssignees` | backend/app/domain/delegation/approval.py:135-154 | one ASSIGNMENT row per created task, in order; fails exactly when some task has no owner |
| `Approval.NotifyCreator` | backend/app/domain/delegation/approval.py:156-173 | the creator is told once unless they made the decision |
| `Approval.MarkDecided` | backend/app/domain/delegation/approval.py:175-195 | status, decision time and version move together, and the audit entry carries both snapshots and the created ids in order |
| `Approval.ExistingDecision` | backend/app/domain/delegation/approval.py:368-376 | a decision of that kind on that plan, or none exists |
| `Ledger.DecideKeeps` | backend/app/domain/delegation/approval.py:119-194 | a decision that goes through keeps the whole cross-table invariant |
| `Ledger.WritesSound` | backend/app/domain/delegation/approval.py:119-194 | its rows realise the items position by position, carry the version read, and fit the work tables |
| `Ledger.WorkStepKeeps` | backend/app/domain/work/lifecycle.py:81-93 | adding or moving work never disturbs what approvals recorded |
| `Ledger.DraftStepKeeps` | backend/app/domain/delegation/service.py:87-176 | drafting never disturbs decided plans, and each submission accounts for its own message |
| `Steps.NextKeepsInv` | backend/app/domain/delegation/approval.py:85-281 | every service call, refused or not, keeps the invariant of all tables |
| `Calls.Play` | backend/app/domain/delegation/service.py:46-208 | a step of the serial machine is the service call: played by the methods on any tables in order, it leaves exactly what `Next` says |
| `Runs.RunsExist` | backend/app/domain/delegation/service.py:46-177 | every sequence of calls from an empty database is a run; the invariant holds at its end |
| `Runs.OneOpenPlanPerScope` | backend/app/database/models/delegation.py:121-126 | at no point of any run are two plans in flight for one responsibility |
| `Runs.VersionNamesContents` | backend/app/domain/delegation/service.py:293-299 | two moments of a run that show a plan at one version show the same row and the same item list |
| `Runs.DecidedIsFrozen` | backend/app/domain/delegation/service.py:273-275 | a decided plan and its items never change again |
| `Runs.ApproverIsFrozen` | backend/app/domain/delegation/service.py:170-173 | the approver chosen at submission stays the approver |
| `Runs.ApprovalBindsToWhatWasRead` | backend/app/domain/delegation/approval.py:356-361 | an approval naming version v creates tasks from exactly the items a reader of version v saw |
| `Runs.OneDecisionEach` | backend/app/domain/delegation/approval.py:119-194 | decided plans have one approval row and one audit row, open plans none; the plan's version is one more than the version approved |
| `Runs.ApprovedPlanIsItsTasks` | backend/app/domain/delegation/approval.py:179-194 | an approved plan's only audit entry names distinct work items that match its item list position by position |
| `Runs.NoTaskOfTwoPlans` | backend/app/domain/delegation/approval.py:298-318 | at no point of any run does a work item stand in two audit entries, so none was created by two plans |
| `Runs.RepeatReportsTheDecision` | backend/app/domain/delegation/approval.py:99-108 | what a repeated call is told is the only decision on record |
| `Runs.OneAssignmentPerApprovedItem` | backend/app/domain/delegation/approval.py:135-154 | as many ASSIGNMENT rows as items in approved plans |
| `Runs.OneNoticePerDecision` | backend/app/domain/delegation/approval.py:156-173 | at every point of a run, PLAN_APPROVED and PLAN_REJECTED rows number the plans decided that way by somebody other than their creator |
| `Runs.ApprovalTellsEveryone` | backend/app/domain/delegation/approval.py:135-192 | an approval tells the assignee of each item, in item order, then an absent creator, and its audit entry counts them |
| `Runs.ApprovalSucceedsIff` | backend/app/domain/delegation/approval.py:110-154 | approval takes effect if and only if pending, version matching, decider entitled, items flat and assigned, scope alive, draws unused; else no table changes |
| `Runs.RejectionSucceedsIff` | backend/app/domain/delegation/approval.py:228-230 | rejection takes effect if and only if pending, version matching, decider entitled; it touches no work |
| `Runs.NestedIsNeverFlattened` | backend/app/domain/delegation/approval.py:291-297 | a plan with a nested item cannot be approved into flat tasks |
| `Runs.HistoryNeverDiverges` | backend/app/domain/work/events.py:20-24 | at every moment of a run a work item is what its event log replays to, within two moves for a task |
| `Runs.NothingAppearsUnderCancelledWork` | backend/app/domain/work/service.py:112-113 | over runs, no WORK_CREATED follows its parent's CANCELLED |
| `Runs.EveryItemHasOneInitiative` | backend/app/domain/work/tree.py:18-33 | every reachable item lies in exactly one initiative's subtree |
| `Trail.NothingIsForgotten` | backend/app/domain/work/events.py:20-33 | events, approvals, audit entries and messages are append-only over runs; work items keep all but status and version |
| `Trail.ApprovedStaysMade` | backend/app/domain/delegation/approval.py:179-194 | the tasks of an approved plan still match its items after any later steps, under the same audit entry |
| `Trail.StatusFollowsTransitions` | backend/app/domain/delegation/states.py:15-28 | plans start as drafts and move only along the declared transitions |
| `Trail.WasSubmitted` | backend/app/domain/delegation/service.py:150-177 | every plan past DRAFT was submitted by one successful call and has the approver it chose |
| `Trail.WasDecided` | backend/app/domain/delegation/approval.py:110-126 | every approval row was written by one call, at the version it records, for an actor entitled to make it |
| `Trail.DecisionTrail` | backend/app/domain/delegation/service.py:259-270 | a decision was made by the approver its submission fixed or by a superadmin, active and of the organization when they were loaded; a creator with a manager decides only as a superadmin |
| `Trail.WaitingPlanIsTheApprovers` | backend/app/api/delegation_plans.py:113-163 | if edits pass the EDIT_PLAN gate, a plan that changed while waiting for approval was changed by its approver or a superadmin |
| `Trail.ChangedByTheApprover` | backend/app/api/delegation_plans.py:113-163 | under that gate, what was decided differs from what was submitted only through edits of the approver or a superadmin |
| `Trail.SubmissionsReachTheApprover` | backend/app/domain/delegation/service.py:193-206 | at every point of a run the recipients of PLAN_SUBMITTED rows are, in order, one per submission by somebody with a manager, that manager at the moment of submission |
| `Trail.ToldIsTheApprover` | backend/app/domain/delegation/service.py:170-206 | and that manager is the approver on the plan's row ever after |
| `Trail.OneNoticePerSubmission` | backend/app/domain/delegation/service.py:180-208 | so as many PLAN_SUBMITTED rows as submissions that went to somebody other than the creator |
| `Trail.ApprovedProperlyIff` | backend/app/domain/delegation/service.py:228-256 | an approved plan's tasks are owned inside the creator's scope as computed at submission, and were not late then, if and only if its items satisfied that check when it was approved; approving at the submitted version implies it |
| `Trail.ApprovedAsSubmitted` | backend/app/domain/delegation/service.py:228-256 | approved at the submitted version, every task is owned inside the creator's scope and not late at submission, and inside the depth cap the approver's scope contains them all |
| `Trail.LateEditIsNotRechecked` | backend/app/domain/permissions/engine.py:182-189 | whoever a late edit names, and whatever date it sets, the approval still goes through and makes that very task |
| `Trail.ApproverCoversCreator` | backend/app/domain/delegation/service.py:259-270 | inside the depth cap the approver's scope includes the creator's |
| `Progress.PendingCanBeApproved` | backend/app/domain/delegation/approval.py:85-202 | in any consistent state a pending plan that is flat, assigned and, if it has items, not under cancelled work can be approved by whoever is entitled to: fresh ids and codes always exist |
| `Progress.SomeRunApproves` | backend/app/domain/delegation/approval.py:85-202 | a concrete run from two people and empty tables in which a plan is drafted, submitted and approved |
| `Progress.SomeRunEscapesTheScope` | backend/app/domain/delegation/service.py:246-256 | a concrete run: submitted in scope, reassigned while waiting, approved, and its one task is owned outside the scope that was checked |
| `ItemLists.RowsRefineList` | backend/app/domain/delegation/service.py:211-225 | after any run the listing equals a plain list edited by append, replace and prune |
| `ItemLists.EditIsListEdit` | backend/app/domain/delegation/service.py:74-147 | each successful edit of rows is that edit of the list |
| `ItemLists.RemovePrunes` | backend/app/database/models/delegation.py:187-192 | the cascade removes exactly the item and what hangs below it, found in one pass over the list |
| `PlanItems.ListItems` | backend/app/domain/delegation/service.py:211-225 | all and only the plan's rows, by ascending sort order |
| `PlanItems.AddAppends` | backend/app/domain/delegation/service.py:302-309 | a row at the next sort order is listed last and sort orders stay distinct |
| `PlanItems.EditReplaces` | backend/app/domain/delegation/service.py:125-132 | an edited row keeps its place |
| `PlanItems.RemoveDeletes` | backend/app/domain/delegation/service.py:139-147 | removal keeps the others, in order, with parents still first |
| `PlanItems.ChildAfterParent` | backend/app/database/models/delegation.py:187-192 | a child is always listed after its parent |
| `Delegation.CreatePlan` | backend/app/domain/delegation/service.py:46-71 | a draft at version 1, or the reason there is none: not a responsibility, cancelled, no code, or a constraint |
| `Delegation.CreatePlanSays` | backend/app/domain/delegation/service.py:46-71 | every field of the new plan, and which refusal comes exactly when: not a live responsibility, no code left, or a row that does not fit |
| `Delegation.AllocateCode` | backend/app/domain/delegation/service.py:312-324 | the first of ten candidates the organization has not used |
| `Delegation.AddItem` | backend/app/domain/delegation/service.py:74-101 | appends a TASK row and bumps the version, exactly when the plan is open and the references hold |
| `Delegation.AddSays` | backend/app/domain/delegation/service.py:74-101 | every field of the new row, its sort order past every other, and exactly when it is let in |
| `Delegation.UpdateItem` | backend/app/domain/delegation/service.py:107-136 | the answer is `EditedAs`: assignee, due date and description are the value given when set, null included, and the old one when left alone, the title is the given one trimmed or the old one, nothing else moves; the stored row is the answer and the version is bumped |
| `Delegation.UpdateSays` | backend/app/domain/delegation/service.py:107-136 | the same of the stored row, and when an edit goes through: an open plan that owns the item and an assignee of its organization |
| `Delegation.RemoveItem` | backend/app/domain/delegation/service.py:139-147 | deletes the row with its cascade and bumps the version, exactly on an open plan that owns it |
| `Delegation.RemoveSays` | backend/app/domain/delegation/service.py:139-147 | succeeds exactly on an open plan that owns the item; a row stays if and only if it is another one whose parent, if any, stays |
| `Delegation.NextSortOrder` | backend/app/domain/delegation/service.py:302-309 | one past the last listed sort order |
| `Delegation.ValidateReady` | backend/app/domain/delegation/service.py:228-256 | accepts exactly non-empty plans whose items are assigned in scope, dated and not late |
| `Delegation.SubmitPlan` | backend/app/domain/delegation/service.py:150-208 | a ready draft is submitted and nothing else is; what is then stored and sent is `SubmitSays` |
| `Delegation.SubmitSays` | backend/app/domain/delegation/service.py:170-206 | the plan goes to its creator's manager, or to a creator without one; the one new row, if there is a manager, is addressed to that manager, and nothing else changes |
| `Delegation.SubmitSaysWhen` | backend/app/domain/delegation/service.py:164-256 | exactly a draft with at least one item, every item dated, not late, and assigned to its creator or to somebody 1 to 32 manager steps below them |
| `Delegation.CreatePlanKeeps` | backend/app/database/models/delegation.py:81-126 | creation keeps one open plan per scope and unique codes |
| `Delegation.AddKeeps` | backend/app/domain/delegation/service.py:87-101 | adding keeps every table constraint |
| `Delegation.UpdateKeeps` | backend/app/domain/delegation/service.py:122-136 | updating keeps every table constraint |
| `Delegation.RemoveKeeps` | backend/app/domain/delegation/service.py:139-147 | removing keeps every table constraint |
| `Delegation.SubmitKeeps` | backend/app/domain/delegation/service.py:164-177 | submitting keeps every table constraint, approver inside the organization included |
| `Interleaving.CommitIsSerial` | backend/app/domain/delegation/approval.py:321-346 | what a transaction commits is what the same call would have done alone on the tables at that moment |
| `Interleaving.DrawnIsFresh` | backend/app/domain/work/service.py:116-135 | codes drawn against older committed codes are, if still free, the ones a single loop would draw now |
| `Interleaving.AfterKeeps` | backend/app/domain/delegation/approval.py:321-346 | every lock, check, creation, commit or abort keeps the invariant: one holder per row, what was read under the lock still so |
| `Interleaving.AlwaysSafe` | backend/app/domain/delegation/approval.py:85-281 | any interleaving of any number of decisions keeps all tables in order |
| `Interleaving.InterleavingIsSerial` | backend/app/domain/delegation/approval.py:321-346 | the committed tables are those of the same requests run one by one in commit order |
| `Interleaving.AnswersAgree` | backend/app/domain/delegation/approval.py:99-111 | all who are told a decision stands made the same decision, and at most one of them wrote it |
| `Interleaving.ExactlyOneTakesEffect` | backend/app/database/models/approvals.py:60-69 | a plan decided during the run was decided by exactly one transaction and has one audit entry |
| `Interleaving.DecidedIsUntouched` | backend/app/domain/delegation/approval.py:349-353 | a plan decided before the run never changes |
| `Interleaving.LateComersLearn` | backend/app/domain/delegation/approval.py:97-111 | under the lock a repeat learns it was decided and an opposite decision is refused; neither writes |
| `Races.LoneCallCommits` | backend/app/domain/delegation/approval.py:85-281 | a request that would go through serially does so through lock, check, one creation per item and commit, whatever else is half-way, if its row is free and nobody acts meanwhile |
| `Races.OneWinsOneLearns` | backend/app/domain/delegation/approval.py:97-111 | of two callers on one plan the first to lock commits the serial result and the second, made to wait, is told it was decided or refused |
| `Interleaving.RefusedAsAlone` | backend/app/domain/delegation/approval.py:97-112 | turned away at the lock or the check, a caller gets the answer the lone call would give at that moment, and nothing is written |
| `Walk.QueryExact` | backend/app/domain/organizations/graph.py:22-60 | the guarded recursive query finds a node at depth k exactly when k simple steps separate it from the root and k is within the cap |
| `Walk.QueryOnce` | backend/app/domain/organizations/graph.py:22-40 | no node is returned twice despite UNION ALL and cycles |
| `Walk.PathGuardBoundsDepth` | backend/app/domain/organizations/graph.py:8-11 | the path guard alone bounds the depth by the size of the table |
| `OrgGraph.DescendantsExact` | backend/app/domain/organizations/graph.py:88-93 | each row is the number of manager steps back to the root |
| `OrgGraph.DescendantsOnce` | backend/app/domain/organizations/graph.py:88-93 | each membership at most once, never the root, on any manager map |
| `OrgGraph.NearestFirst` | backend/app/domain/organizations/graph.py:88-100 | both lists come nearest first |
| `OrgGraph.AncestorsExact` | backend/app/domain/organizations/graph.py:95-100 | the same upward |
| `OrgGraph.AncestorsInOrder` | backend/app/domain/organizations/graph.py:95-100 | the i-th ancestor is the (i+1)-fold manager |
| `OrgGraph.FirstAncestor` | backend/app/domain/organizations/graph.py:95-100 | the chain is empty exactly when there is no manager, and never starts with oneself |
| `OrgGraph.UpAgreesWithDown` | backend/app/domain/organizations/graph.py:106-115 | walking up and walking down agree, distance included, cyclic or not |
| `OrgGraph.IsAncestorIsScope` | backend/app/domain/organizations/graph.py:106-124 | is_ancestor(a, d) exactly when d is in a's scope and is not a |
| `OrgGraph.ScopesLaminar` | backend/app/domain/organizations/graph.py:117-124 | overlapping scopes have one root inside the other's scope |
| `OrgGraph.ScopesAreClosuresIff` | backend/app/domain/organizations/graph.py:117-124 | scopes are the reflexive-transitive closure exactly when no simple chain exceeds the cap |
| `OrgGraph.SmallOrganizationsFit` | backend/app/domain/organizations/graph.py:20 | 33 memberships or fewer always fit the cap of 32, cycles or not |
| `OrgGraph.DeepChainIsCut` | backend/app/domain/organizations/graph.py:20 | a line of 34 does not: its last member reports to the first and is missing from the first's scope |
| `OrgGraph.ScopeInclusion` | backend/app/domain/organizations/graph.py:117-124 | inside the cap, a member of a scope has their whole scope in it |
| `OrgGraph.ScopeStaysInOrg` | backend/app/database/models/organizations.py:103-108 | a scope never leaves its organization |
| `Permissions.WorkFollowsTheChain` | backend/app/domain/permissions/engine.py:119-171 | inside the depth cap, viewing, changing, cancelling, adding under and planning work is allowed exactly to active members of the organization who are superadmins, answer for it (its owner, or its creator when it has none), or are above whoever does |
| `Permissions.HandoverStaysBelow` | backend/app/domain/permissions/engine.py:154-163 | a handover, exactly to those and only to somebody else below them |
| `Permissions.ViewFollowsTheChain` | backend/app/domain/permissions/engine.py:100-104 | a member's work, exactly to that member and those above |
| `Permissions.OwnTasksOnly` | backend/app/domain/permissions/engine.py:141-151 | starting and finishing, exactly to the task's owner: a manager may not |
| `Permissions.PlanIsIn` | backend/app/domain/permissions/engine.py:174-225 | a draft is its creator's to edit and send, a waiting plan its approver's to edit, approve and reject, a decided plan nobody's |
| `Permissions.AdministratorsOnly` | backend/app/domain/permissions/engine.py:107-116 | initiatives, members and the hierarchy, and actions without a rule, are allowed to superadmins only, never across organizations |
| `Permissions.AuthorityFollowsTheChain` | backend/app/domain/permissions/engine.py:100-171 | what scope allows a member it allows every active manager above, exactly unless the handover is to that manager, which takes a cycle |
| `Permissions.CircleBreaksTheChain` | backend/app/domain/permissions/engine.py:154-163 | the exception exists: of two people who manage each other, one may hand work to the other, who may not take it |
| `Permissions.PlanHasOneHand` | backend/app/domain/permissions/engine.py:174-225 | below superadmin a plan is editable by at most one member, deciding and rejecting coincide and imply editing, nobody may send what somebody may decide, decided plans are closed |
| `Work.CreateWorkItem` | backend/app/domain/work/service.py:36-85 | the row and its creation events, or the error, and then nothing |
| `Work.CreationSays` | backend/app/domain/work/service.py:36-113 | every field of the row and its events, and which error comes exactly when: misplaced, no code left, or a row that does not fit |
| `Work.AllocateCode` | backend/app/domain/work/service.py:116-135 | the first of ten candidates the organization has not used |
| `Common.FirstFreeIsFirst` | backend/app/domain/work/service.py:124-135 | the allocation loop returns the first candidate not taken, not just any |
| `Work.Transition` | backend/app/domain/work/lifecycle.py:62-93 | the present state asked for again is a no-op, not an error; otherwise it goes through exactly when the event continues the item's log and the actor is nobody or a member, is an invalid transition exactly when it does not, and a constraint error exactly for an unknown actor |
| `Work.MoveSays` | backend/app/domain/work/lifecycle.py:62-93 | the same of the answer the serial machine reads |
| `Work.RecordEvent` | backend/app/domain/work/events.py:12-33 | appends one event |
| `Work.WithWorkKeepsWorks` | backend/app/domain/work/service.py:20-24 | creation keeps strict nesting, one organization per branch and unique codes |
| `Work.WithWorkKeepsEvents` | backend/app/domain/work/service.py:64-83 | creation keeps every log a word of WORK_CREATED [ASSIGNED] and moves, and nothing under cancelled work |
| `Work.MovedKeepsEvents` | backend/app/domain/work/lifecycle.py:22-41 | every allowed move extends the log to the word of the new status |
| `Work.MovesExtendIff` | backend/app/domain/work/lifecycle.py:22-41 | the transition tables are the grammar of the log: a move is allowed exactly when its event continues the word |
| `Work.ContinuesIff` | backend/app/domain/work/lifecycle.py:22-41 | so the table is exactly the pairs whose event continues a log that led to the present status |
| `Work.LogReplaysToState` | backend/app/domain/work/lifecycle.py:75-93 | folding an item's log gives its status, owner and version; a task has at most two moves, a container one |
| `WorkTree.KindFixesChain` | backend/app/domain/work/service.py:20-24 | climbing drops one kind a step and ends at an initiative |
| `WorkTree.SubtreeIsComplete` | backend/app/domain/work/tree.py:18-33 | neither the path guard nor the cap ever cuts a tree |
| `WorkTree.SubtreeDepths` | backend/app/domain/work/tree.py:59-65 | a row's depth is the difference of kinds and no item is listed twice |
| `WorkTree.SubtreeSplits` | backend/app/domain/work/tree.py:59-65 | a subtree is its root and its children's subtrees |
| `WorkTree.SiblingsDisjoint` | backend/app/domain/work/tree.py:59-65 | subtrees of two items of one kind share nothing |
| `WorkTree.OneInitiative` | backend/app/domain/work/tree.py:18-50 | every item lies under one initiative and no other |
| `WorkTree.AncestorsAreTheChain` | backend/app/domain/work/tree.py:35-50 | the ancestor list is the whole chain, nearest first, one kind higher each |
| `Notifications.Enqueue` | backend/app/domain/notifications/outbox.py:21-55 | one row per notification; refused exactly when the recipient is missing or foreign |
| `Notifications.MessageSays` | backend/app/domain/notifications/outbox.py:31-52 | the row names the organization, recipient, type and time it was asked for, and is PENDING exactly with an address to go to |
| `Notifications.FailedIffUnreachable` | backend/app/domain/notifications/outbox.py:31-46 | FAILED exactly when the recipient has no verified address on the channel |
| `Notifications.FirstVerified` | backend/app/domain/notifications/outbox.py:58-70 | a verified address of that user on that channel, or there is none |
| `Addresses.IdempotentIff` | backend/app/domain/identity/addresses.py:40-55 | a canonical form normalises to itself exactly when no second URI prefix was left in front of the address |
| `Addresses.PrefixedTwice` | backend/app/domain/identity/addresses.py:58-63 | a canonical form that is not a fixed point: a second prefix is stripped only the second time |
| `Addresses.CaseIgnored` | backend/app/domain/identity/addresses.py:66-76 | letter case never matters, in any part of any address |
| `Addresses.PrefixIgnored` | backend/app/domain/identity/addresses.py:58-63 | one URI prefix, in any case, changes nothing |
| `Addresses.PunctuationIgnored` | backend/app/domain/identity/addresses.py:79-91 | a phone number is its digits and whether it starts with a plus |
| `Addresses.PunctuationInserted` | backend/app/domain/identity/addresses.py:27-30 | punctuation after the first character changes nothing |
| `Addresses.NationalOrInFull` | backend/app/domain/identity/addresses.py:93-98 | a ten-digit number may be written in full with a plus; without it exactly when the country code is one digit |
| `Respellings.SpellingsAgree` | backend/app/domain/identity/addresses.py:3-10 | every punctuated spelling of a national number, with or without 1 or +1 or a URI prefix, has one key |
| `Addresses.KeyShape` | backend/app/domain/identity/addresses.py:43-54 | an email key is the lowercased address; a phone key is a plus and 7 to 15 digits; never both |
| `Addresses.EmailSays` | backend/app/domain/identity/addresses.py:66-76 | with an at sign, an address is its lowercased self when it is one non-empty name, one at sign, a dotted domain and no blanks, and unusable otherwise |
| `Addresses.StrayIsRefused` | backend/app/domain/identity/addresses.py:79-84 | without an at sign, any character that is neither a digit nor listed phone punctuation makes it unusable |
| `Addresses.SeparatedNumber` | backend/app/domain/identity/addresses.py:27-30 | three, three and four digits separated by any two of the listed characters are that number under +1 |
| `Addresses.PlusText` | backend/app/domain/identity/addresses.py:90-93 | a plus and digits is itself when there are 7 to 15 of them, and unusable otherwise |
| `Text.StripTrims` | backend/app/domain/work/service.py:55 | stripping removes the blanks at both ends and nothing else |
| `Respellings.RespellingKeeps` | backend/app/domain/identity/addresses.py:40-100 | rewriting case, blanks, a URI prefix, punctuation or a national number in full never changes the answer, key or error |
| `Respellings.SameKeyIff` | backend/app/domain/identity/addresses.py:40-100 | two usable addresses have one key if and only if such rewritings lead from one to the other |
| `Identities.RegisterIdentity` | backend/app/domain/identity/resolution.py:54-81 | one canonical row per channel and address; an unreadable or claimed address is refused and nothing written |
| `Identities.RegisterSays` | backend/app/domain/identity/resolution.py:54-81 | refused exactly when unreadable or claimed on that channel; otherwise the row has the fields it was given and the canonical key |
| `Identities.OneOwnerPerAddress` | backend/app/database/models/messaging.py:52-57 | two rows for one address on one channel are one row, however spelled |
| `Identities.ResolvesIff` | backend/app/domain/identity/resolution.py:20-51 | for every sender text, readable or not: it resolves to a member exactly when it can be read, they are in the organization, and they hold, verified, an address it can be rewritten into; text that cannot be read resolves to nobody |
| `Identities.RegisteredResolves` | backend/app/domain/identity/resolution.py:54-81 | once registered and verified, every rewriting of the address resolves to the owner's membership |
| `Identities.SpelledNumberResolves` | backend/app/domain/identity/resolution.py:54-81 | a ten-digit number enrolled in one spelling is recognised in any other: punctuation, 1 or +1, URI prefix, on either side |
| `Identities.MailboxResolves` | backend/app/domain/identity/resolution.py:54-81 | a mailbox enrolled in one case is recognised in any other, with or without a URI prefix |
| `Identities.OthersResolveAsBefore` | backend/app/domain/identity/resolution.py:29-36 | an unverified row, another address or another channel changes no answer |

## Left out

- HTTP routes, request schemas, error mapping, configuration, logging, the worker that delivers messages:
  plumbing.  The serial steps are the domain calls themselves, not gated by the `require` calls the routes make,
  except where `Trail.WaitingPlanIsTheApprovers` assumes the gate on edits; decisions check the actor themselves.
- Interleaving of unlocked edits with each other or with decisions: the code takes no lock there, so version
  claims are about runs in which each call is atomic.
- Message bodies, time zones, display names, denial sentences and the payloads of task events.
- Short-code text: codes are arbitrary strings drawn from outside, and running out after ten is an outcome.
- The order among rows a query does not order, and the orders by id or title that only break ties: descendants,
  subtrees and joins are stated for any scan order; `_load` re-sorting by title is not modelled.
- Which of several verified addresses a message goes to: the first in scan order here, any in the database.
- Column widths, `created_at`, `updated_at`, `verified_at`, `role_type`, job titles, users and organizations as
  tables of their own, `direct_reports`.
- Deleting memberships, work items or plans: no modelled service does it.
- A primary key that collides, or any other constraint met at flush, is `IntegrityError` at the point where the
  model checks it; which of several broken constraints PostgreSQL reports first is not modelled.
- Lower-casing, digits and blanks outside ASCII and Latin-1, and a missing (`None`) address.
- The identity map, autoflush and isolation levels of the database: a locked read sees the committed row, other
  reads see what is committed when they happen.
- Approval.ExistingDecision: does not model the order by decision time, because a plan never has two decisions.
- Identities.RegisterIdentity: does not model the foreign key to users, because users are not a table here.
