/** What chains, iters and batches share: statuses, their transitions, and hooks queued once. */
module Workflows {
  datatype Status = Pending | Running | WaitingApproval | Succeeded | Failed | Cancelled

  /** The transition table. FAILED to RUNNING is there for a chain's resume. */
  function ValidTransitions(status: Status): set<Status> {
    match status
    case Pending => {Running, Cancelled}
    case Running => {WaitingApproval, Succeeded, Failed, Cancelled}
    case WaitingApproval => {Running, Cancelled}
    case Failed => {Running}
    case Succeeded => {}
    case Cancelled => {}
  }

  predicate CanBecome(status: Status, next: Status) {
    next in ValidTransitions(status)
  }

  predicate IsTerminal(status: Status) {
    status == Succeeded || status == Failed || status == Cancelled
  }

  /** Terminal statuses other than FAILED are left by no transition. */
  lemma TerminalIsFinal(status: Status, next: Status)
    ensures IsTerminal(status) && CanBecome(status, next) <==> status == Failed && next == Running
  {
  }

  /** The same table by its targets: who may run, who may park or end, and who may be cancelled. */
  lemma TransitionsByTarget(status: Status, next: Status)
    ensures next == Running ==> (CanBecome(status, next) <==> status == Pending || status == WaitingApproval || status == Failed)
    ensures next == WaitingApproval || next == Succeeded || next == Failed ==> (CanBecome(status, next) <==> status == Running)
    ensures next == Cancelled ==> (CanBecome(status, next) <==> !IsTerminal(status))
    ensures next == Pending ==> !CanBecome(status, next)
  {
  }

  datatype HookType = SuccessHook | FailureHook | CancelledHook

  /** A hook on its way, and which settlement of the workflow it announces. */
  datatype Hook = Hook(kind: HookType, settlement: nat)

  /** The hook that announces this status, and no other. */
  predicate Announces(kind: HookType, status: Status) {
    && (kind == SuccessHook <==> status == Succeeded)
    && (kind == FailureHook <==> status == Failed)
    && (kind == CancelledHook <==> status == Cancelled)
  }

  /** Dispatch rows by hook type, the hooks queued, and those a process is about to queue. */
  datatype Hooks = Hooks(rows: set<HookType>, sent: seq<Hook>, pending: set<Hook>)

  /** `dispatch_hook_once`: a refused enqueue gives the row back, and nobody asks again. */
  function Fire(h: Hooks, hook: Hook, enqueued: bool): Hooks {
    var taken := h.(pending := h.pending - {hook});
    if hook.kind in h.rows || !enqueued then taken
    else taken.(rows := h.rows + {hook.kind}, sent := h.sent + [hook])
  }

  /** Hooks are numbered by settlement; each is pending or sent, once. */
  ghost predicate HooksSound(h: Hooks, settlements: nat) {
    && (forall i, j :: 0 <= i < j < |h.sent| ==> h.sent[i].settlement != h.sent[j].settlement)
    && (forall i :: 0 <= i < |h.sent| ==> h.sent[i].settlement < settlements)
    && (forall p :: p in h.pending ==> p.settlement < settlements)
    && (forall p, i :: p in h.pending && 0 <= i < |h.sent| ==> h.sent[i].settlement != p.settlement)
    && (forall p, q :: p in h.pending && q in h.pending && p.settlement == q.settlement ==> p == q)
  }

  lemma NoHooksAreSound()
    ensures HooksSound(Hooks({}, [], {}), 0)
  {
  }

  lemma FireKeepsHooks(h: Hooks, hook: Hook, enqueued: bool, settlements: nat)
    requires HooksSound(h, settlements)
    requires hook in h.pending
    ensures HooksSound(Fire(h, hook, enqueued), settlements)
  {
  }

  /** A dispatch row stands for a message that went out: a refused one has given its row back. */
  ghost predicate RowsHaveMessages(h: Hooks) {
    forall kind :: kind in h.rows ==> exists i :: 0 <= i < |h.sent| && h.sent[i].kind == kind
  }

  lemma FireKeepsRowMessages(h: Hooks, hook: Hook, enqueued: bool)
    requires RowsHaveMessages(h)
    ensures RowsHaveMessages(Fire(h, hook, enqueued))
  {
    var f := Fire(h, hook, enqueued);
    forall kind | kind in f.rows
      ensures exists i :: 0 <= i < |f.sent| && f.sent[i].kind == kind
    {
      if kind in h.rows {
        var i :| 0 <= i < |h.sent| && h.sent[i].kind == kind;
        assert f.sent[i].kind == kind;
      } else {
        assert f.sent[|h.sent|].kind == kind;
      }
    }
  }

  /** A settlement announces itself with a number of its own. */
  lemma NewHookIsSound(h: Hooks, kind: HookType, settlements: nat)
    requires HooksSound(h, settlements)
    ensures HooksSound(h.(pending := h.pending + {Hook(kind, settlements)}), settlements + 1)
  {
  }

  lemma FiringNewHookIsSound(h: Hooks, kind: HookType, enqueued: bool, settlements: nat)
    requires HooksSound(h, settlements)
    ensures HooksSound(Fire(h, Hook(kind, settlements), enqueued), settlements + 1)
  {
    NewHookIsSound(h, kind, settlements);
    var hook := Hook(kind, settlements);
    FireKeepsHooks(h.(pending := h.pending + {hook}), hook, enqueued, settlements + 1);
    assert h.pending + {hook} - {hook} == h.pending - {hook};
  }
}
