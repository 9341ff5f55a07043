/** What each edit of a Draft is answered in every store that a run can reach, and what it leaves there. */
module DraftOutcomes {
  import opened Wrappers
  import opened DraftRevisions

  /** The edit is about the last revision of a Draft of a built-in Persona that is selected. */
  predicate OnLast(s: Store, builtIn: set<string>, k: int)
  {
    && 1 <= k < 100 && k in s.drafts && k + 1 !in s.drafts
    && s.selected == Some(s.drafts[k].persona) && s.drafts[k].persona in builtIn
  }

  /** The transaction of an edit may commit: the clock is behind neither the Draft nor the work item. */
  predicate Timely(s: Store, k: int, now: int)
    requires k in s.drafts
  {
    s.drafts[k].updatedAt <= now && s.touched <= now
  }

  /** What a chain says of its last revision: it is active, and nothing on record says that it was closed. */
  lemma LastIsOpen(s: Store, builtIn: set<string>, k: int)
    requires Inv(s) && OnLast(s, builtIn, k)
    ensures s.drafts[k].revision == k && (s.drafts[k].state.Editing? || s.drafts[k].state.ReadyForReview?)
    ensures Supersession(k) !in s.transitions && (forall r :: r in s.drafts ==> r <= k)
    ensures s.drafts[k].state.Editing? ==> Submission(k) !in s.transitions && AuditId(k, Submitted) !in s.audits
    ensures AuditId(k + 1, Edited) !in s.audits && AuditId(k + 1, Submitted) !in s.audits
  {
    var n :| Chain(s, n);
    assert k == n;
  }

  /** The store with a further revision on top of the last one. */
  function Extended(s: Store, k: int, request: Request, now: int): Store
    requires k in s.drafts
  {
    var next := Draft(s.drafts[k].persona, k + 1, if request.submit then ReadyForReview else Editing, request.content, now, now);
    s.(drafts := s.drafts[k := s.drafts[k].(state := Superseded, updatedAt := now)][k + 1 := next],
       transitions := s.transitions + {Supersession(k)})
  }

  /** The audit that an edit leaves about a revision. */
  function WithAudit(s: Store, revision: int, request: Request, k: int): Store
    requires revision in s.drafts
  {
    s.(audits := s.audits[AuditId(revision, if request.submit then Submitted else Edited) :=
                          Audit(k, s.drafts[revision].state, s.drafts[revision].updatedAt)])
  }

  /** New content: the last revision is superseded by one with that content, submitted if that was asked for, and audited. */
  lemma NewContentAddsRevision(steps: seq<Step>, builtIn: set<string>, request: Request, now: int)
    requires OnLast(Run(steps), builtIn, request.sourceRevision)
    requires request.content != Run(steps).drafts[request.sourceRevision].content
    requires Timely(Run(steps), request.sourceRevision, now)
    ensures var s, k := Run(steps), request.sourceRevision;
            var t := Extended(s, k, request, now);
            Edit(s, builtIn, request, now, Io(true, true)) ==
            (WithAudit(t, k + 1, request, k), Ok((t.drafts[k + 1], if request.submit then SubmittedNow else Saved)))
  {
    ChainHolds(steps);
    LastIsOpen(Run(steps), builtIn, request.sourceRevision);
  }

  /** The same content, not to be submitted: nothing to do. */
  lemma SameContentIsSaved(steps: seq<Step>, builtIn: set<string>, request: Request, now: int, io: Io)
    requires OnLast(Run(steps), builtIn, request.sourceRevision) && !request.submit
    requires request.content == Run(steps).drafts[request.sourceRevision].content
    ensures var s, k := Run(steps), request.sourceRevision;
            Edit(s, builtIn, request, now, io) == (s, Ok((s.drafts[k], Recovered)))
  {
    ChainHolds(steps);
    LastIsOpen(Run(steps), builtIn, request.sourceRevision);
  }

  /** The same content, submitted while it is edited: the revision itself becomes ready, and that is audited. */
  lemma SubmitsInPlace(steps: seq<Step>, builtIn: set<string>, request: Request, now: int)
    requires OnLast(Run(steps), builtIn, request.sourceRevision) && request.submit
    requires request.content == Run(steps).drafts[request.sourceRevision].content
    requires Run(steps).drafts[request.sourceRevision].state.Editing?
    requires Run(steps).drafts[request.sourceRevision].updatedAt <= now
    ensures var s, k := Run(steps), request.sourceRevision;
            var ready := s.drafts[k].(state := ReadyForReview, updatedAt := now);
            var t := s.(drafts := s.drafts[k := ready], transitions := s.transitions + {Submission(k)});
            Edit(s, builtIn, request, now, Io(true, true)) == (WithAudit(t, k, request, k), Ok((ready, SubmittedNow)))
  {
    ChainHolds(steps);
    LastIsOpen(Run(steps), builtIn, request.sourceRevision);
  }

  /** A transaction that cannot commit, or comes too early, leaves the store as it was. */
  lemma UncommittedChangesNothing(steps: seq<Step>, builtIn: set<string>, request: Request, now: int, io: Io)
    requires OnLast(Run(steps), builtIn, request.sourceRevision)
    requires request.content != Run(steps).drafts[request.sourceRevision].content
    requires !io.commits || !Timely(Run(steps), request.sourceRevision, now)
    ensures Edit(Run(steps), builtIn, request, now, io) == (Run(steps), Err(RuntimeUnavailable))
  {
    ChainHolds(steps);
    LastIsOpen(Run(steps), builtIn, request.sourceRevision);
  }

  /** The next revision is what the edit asked for. */
  predicate Already(s: Store, request: Request)
  {
    var k := request.sourceRevision;
    && k + 1 in s.drafts && s.drafts[k + 1].content == request.content
    && s.drafts[k + 1].state == (if request.submit then ReadyForReview else Editing)
  }

  /**
   What no edit may do: leave the range, touch a revision that is not there or not of the selected built-in Persona, or
   rewrite one that has another successor. The caller is told so, and nothing changes.
   */
  lemma RefusedEdits(steps: seq<Step>, builtIn: set<string>, request: Request, now: int, io: Io)
    ensures var s, k := Run(steps), request.sourceRevision;
            && (Edit(s, builtIn, request, now, io) == (s, Err(InvalidRequest)) <==> !(1 <= k < 100))
            && (1 <= k < 100
                && (k !in s.drafts || s.selected != Some(s.drafts[k].persona) || s.drafts[k].persona !in builtIn
                    || (k + 1 in s.drafts && !Already(s, request))) ==>
                  Edit(s, builtIn, request, now, io) == (s, Err(TargetUnavailable)))
  {
    ChainHolds(steps);
    var n :| Chain(Run(steps), n);
  }

  /** An edit whose outcome is there already answers with it, and at most completes its audit. */
  lemma RecoveredEdits(steps: seq<Step>, builtIn: set<string>, request: Request, now: int, io: Io)
    requires 1 <= request.sourceRevision < 100 && request.sourceRevision in Run(steps).drafts && Already(Run(steps), request)
    requires Run(steps).selected == Some(Run(steps).drafts[request.sourceRevision].persona)
    requires Run(steps).drafts[request.sourceRevision].persona in builtIn
    ensures var s, k := Run(steps), request.sourceRevision;
            var (t, r) := Edit(s, builtIn, request, now, io);
            && t.drafts == s.drafts && t.transitions == s.transitions
            && (r.Ok? ==> r.value == (s.drafts[k + 1], Recovered) && t == WithAudit(s, k + 1, request, k))
            && (r.Err? ==> t == s && r.error == RuntimeUnavailable)
            && (!io.audits ==> r.Err?)
            && (io.audits && AuditId(k + 1, if request.submit then Submitted else Edited) !in s.audits ==> r.Ok?)
  {
    ChainHolds(steps);
    var n :| Chain(Run(steps), n);
  }

  /** A first Draft is stored exactly if it is one, active, and of the Persona selected before, and nothing over another. */
  lemma FirstDraftIsStored(steps: seq<Step>, d: Draft)
    ensures var s := Run(steps);
            if s.drafts == map[] && d.revision == 1 && (d.state.Editing? || d.state.ReadyForReview?)
               && s.selected == Some(d.persona) && s.touched <= d.createdAt <= d.updatedAt
            then Create(s, d) == s.(drafts := map[1 := d]) else Create(s, d) == s
  {
    assert map[1 := d] == map[][1 := d];
  }

  // The upward reader

  /** A row that continues the chain of this Draft. */
  predicate Continues(drafts: map<int, Draft>, initial: Draft, r: int)
  {
    r <= 100 && r in drafts && drafts[r].persona == initial.persona && drafts[r].revision == r
  }

  /** From `next` on the rows continue the chain up to `last` and no further. */
  predicate ContinuesTo(drafts: map<int, Draft>, initial: Draft, next: int, last: int)
  {
    next - 1 <= last && (forall r :: next <= r <= last ==> Continues(drafts, initial, r)) && !Continues(drafts, initial, last + 1)
  }

  function RowOr(drafts: map<int, Draft>, current: Draft, next: int, last: int): Draft
  {
    if next <= last && last in drafts then drafts[last] else current
  }

  /**
   Over any rows: the reader goes as far as the chain continues, and answers with the Draft there unless it is superseded
   or a row that does not continue the chain follows within the limit.
   */
  lemma {:induction false} ReaderFollows(drafts: map<int, Draft>, initial: Draft, current: Draft, next: int) returns (last: int)
    ensures ContinuesTo(drafts, initial, next, last)
    ensures var d := RowOr(drafts, current, next, last);
            Follow(drafts, initial, current, next) ==
            if d.state.Superseded? || (last + 1 <= 100 && last + 1 in drafts) then Err(TargetUnavailable) else Ok(d)
    decreases 100 - next
  {
    if Continues(drafts, initial, next) {
      last := ReaderFollows(drafts, initial, drafts[next], next + 1);
      assert Continues(drafts, initial, last);
      assert RowOr(drafts, current, next, last) == RowOr(drafts, drafts[next], next + 1, last);
      assert Follow(drafts, initial, current, next) == Follow(drafts, initial, drafts[next], next + 1);
    } else {
      last := next - 1;
    }
  }
}
