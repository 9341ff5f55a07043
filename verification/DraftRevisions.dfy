/**
 The chain of revisions of one work item's Draft: user edits through the model Draft controller, the
 transactions of the store below it, and the two readers that look for the last revision.
 */
module DraftRevisions {
  import opened Wrappers

  const MAX_REVISION := 100

  datatype Status = Editing | ReadyForReview | Superseded | Cancelled

  datatype Content = Content(mediaType: string, text: string)

  datatype Draft = Draft(persona: string, revision: int, state: Status, content: Content, createdAt: int, updatedAt: int)

  /** Identities of stored transitions: one per revision for each of the two kinds used here. */
  datatype Transition = Submission(revision: int) | Supersession(revision: int)

  datatype AuditAction = Edited | Submitted

  datatype AuditId = AuditId(revision: int, action: AuditAction)

  datatype Audit = Audit(sourceRevision: int, state: Status, occurredAt: int)

  /** What the database holds about one work item; `selected` is its Persona and `touched` its update time. */
  datatype Store = Store(
    selected: Option<string>,
    touched: int,
    drafts: map<int, Draft>,
    transitions: set<Transition>,
    audits: map<AuditId, Audit>)

  datatype Request = Request(sourceRevision: int, content: Content, submit: bool)

  datatype Disposition = Recovered | Saved | SubmittedNow

  datatype Error = InvalidRequest | TargetUnavailable | RuntimeUnavailable

  /** Whether the Draft transaction commits and whether the audit write that follows it does. */
  datatype Io = Io(commits: bool, audits: bool)

  predicate Allowed(from: Status, to: Status)
  {
    || (from.Editing? && !to.Editing?)
    || (from.ReadyForReview? && (to.Superseded? || to.Cancelled?))
  }

  function Transitioned(d: Draft, to: Status, now: int): Option<Draft>
  {
    if !Allowed(d.state, to) || now < d.updatedAt then None else Some(d.(state := to, updatedAt := now))
  }

  /** `transitionDraft` from editing to review. */
  function Submit(s: Store, source: Draft, now: int, commits: bool): Result<(Store, Draft), Error>
  {
    var next := Transitioned(source, ReadyForReview, now);
    if Submission(source.revision) in s.transitions || next.None? || !commits then Err(RuntimeUnavailable)
    else
      Ok((s.(drafts := s.drafts[source.revision := next.value],
             transitions := s.transitions + {Submission(source.revision)}), next.value))
  }

  /** `reviseDraft`: both rows in one transaction. The caller has found no row for the next revision. */
  function Revise(s: Store, source: Draft, next: Draft, commits: bool): Result<Store, Error>
    requires next.revision !in s.drafts
  {
    var closed := Transitioned(source, Superseded, next.createdAt);
    if next.persona != source.persona || next.revision != source.revision + 1 then Err(RuntimeUnavailable)
    else if Supersession(source.revision) in s.transitions || closed.None? then Err(RuntimeUnavailable)
    else if exists r :: r in s.drafts && r > source.revision then Err(RuntimeUnavailable)
    else if s.selected != Some(next.persona) || next.createdAt < s.touched || !commits then Err(RuntimeUnavailable)
    else
      Ok(s.(drafts := s.drafts[source.revision := closed.value][next.revision := next],
            transitions := s.transitions + {Supersession(source.revision)}))
  }

  /** The audit record of an edit. Its identity names the Draft and the action only. */
  function Record(s: Store, d: Draft, action: AuditAction, sourceRevision: int, stores: bool): Result<Store, Error>
  {
    var id := AuditId(d.revision, action);
    var audit := Audit(sourceRevision, d.state, d.updatedAt);
    if !stores || (id in s.audits && s.audits[id] != audit) then Err(RuntimeUnavailable)
    else Ok(s.(audits := s.audits[id := audit]))
  }

  /** The audit after a committed store change: its failure does not undo the change. */
  function Audited(s: Store, d: Draft, action: AuditAction, sourceRevision: int, stores: bool, done: Disposition)
    : (Store, Result<(Draft, Disposition), Error>)
  {
    var recorded := Record(s, d, action, sourceRevision, stores);
    if recorded.Err? then (s, Err(recorded.error)) else (recorded.value, Ok((d, done)))
  }

  function Action(request: Request): AuditAction
  {
    if request.submit then Submitted else Edited
  }

  function Target(request: Request): Status
  {
    if request.submit then ReadyForReview else Editing
  }

  function Edit(s: Store, builtIn: set<string>, request: Request, now: int, io: Io)
    : (Store, Result<(Draft, Disposition), Error>)
  {
    var n := request.sourceRevision;
    if n < 1 || n >= MAX_REVISION then (s, Err(InvalidRequest))
    else if s.selected.None? || n !in s.drafts then (s, Err(TargetUnavailable))
    else
      var source := s.drafts[n];
      if source.revision != n || source.persona != s.selected.value || source.persona !in builtIn then
        (s, Err(TargetUnavailable))
      else if n + 1 in s.drafts then
        var existing := s.drafts[n + 1];
        if existing.persona != source.persona || existing.revision != n + 1 || existing.state != Target(request)
           || existing.content != request.content
        then (s, Err(TargetUnavailable))
        else Audited(s, existing, Action(request), n, io.audits, Recovered)
      else if source.content == request.content then EditUnchanged(s, source, request, now, io)
      else if !source.state.Editing? && !source.state.ReadyForReview? then (s, Err(TargetUnavailable))
      else
        var next := Draft(source.persona, n + 1, Target(request), request.content, now, now);
        var revised := Revise(s, source, next, io.commits);
        if revised.Err? then (s, Err(revised.error))
        else
          Audited(revised.value, next, Action(request), n, io.audits, if request.submit then SubmittedNow else Saved)
  }

  function EditUnchanged(s: Store, source: Draft, request: Request, now: int, io: Io)
    : (Store, Result<(Draft, Disposition), Error>)
  {
    if !request.submit then (s, Ok((source, Recovered)))
    else if source.state.ReadyForReview? then Audited(s, source, Submitted, source.revision, io.audits, Recovered)
    else if !source.state.Editing? then (s, Err(TargetUnavailable))
    else
      var submitted := Submit(s, source, now, io.commits);
      if submitted.Err? then (s, Err(submitted.error))
      else Audited(submitted.value.0, submitted.value.1, Submitted, source.revision, io.audits, SubmittedNow)
  }

  /** `createDraft` of the first revision; nothing is stored over an existing one. */
  function Create(s: Store, d: Draft): Store
  {
    if d.revision != 1 || !(d.state.Editing? || d.state.ReadyForReview?) || d.createdAt > d.updatedAt then s
    else if 1 in s.drafts || s.selected != Some(d.persona) || d.createdAt < s.touched then s
    else if s.drafts != map[] then s
    else s.(drafts := s.drafts[1 := d])
  }

  datatype Step =
    | Creates(draft: Draft)
    | Edits(builtIn: set<string>, request: Request, now: int, io: Io)
    | Selects(persona: Option<string>, touched: int)

  function Apply(s: Store, step: Step): Store
  {
    match step
    case Creates(d) => Create(s, d)
    case Edits(builtIn, request, now, io) => Edit(s, builtIn, request, now, io).0
    case Selects(persona, touched) => s.(selected := persona, touched := touched)
  }

  function Run(steps: seq<Step>): Store
  {
    if steps == [] then Store(None, 0, map[], {}, map[])
    else Apply(Run(steps[..|steps| - 1]), steps[|steps| - 1])
  }

  /** Revisions 1 to n, all but the last superseded, the last one active, all of one Persona. */
  ghost predicate Chain(s: Store, n: nat)
  {
    && n <= MAX_REVISION
    && (forall r :: r in s.drafts <==> 1 <= r <= n)
    && (forall r :: r in s.drafts ==> s.drafts[r].revision == r)
    && (forall r :: r in s.drafts ==> (s.drafts[r].state.Superseded? <==> r < n) && !s.drafts[r].state.Cancelled?)
    && (forall r :: r in s.drafts ==> s.drafts[r].persona == s.drafts[1].persona)
  }

  /** The transitions and audits on record speak of what has happened to the Drafts. */
  ghost predicate Records(s: Store)
  {
    && (forall r :: Supersession(r) in s.transitions ==> r in s.drafts && s.drafts[r].state.Superseded?)
    && (forall r :: Submission(r) in s.transitions ==> r in s.drafts && !s.drafts[r].state.Editing?)
    && (forall id :: id in s.audits ==> id.revision in s.drafts)
    && (forall id :: id in s.audits && id.action.Submitted? ==> !s.drafts[id.revision].state.Editing?)
  }

  ghost predicate Inv(s: Store)
  {
    Records(s) && exists n :: Chain(s, n)
  }

  lemma RecordKeeps(s: Store, n: nat, d: Draft, action: AuditAction, sourceRevision: int, stores: bool, done: Disposition)
    requires Chain(s, n) && Records(s)
    requires d.revision in s.drafts && (action.Submitted? ==> !s.drafts[d.revision].state.Editing?)
    ensures Chain(Audited(s, d, action, sourceRevision, stores, done).0, n)
    ensures Records(Audited(s, d, action, sourceRevision, stores, done).0)
  {
  }

  lemma ReviseKeeps(s: Store, n: nat, next: Draft, commits: bool)
    requires Chain(s, n) && Records(s) && 1 <= n < MAX_REVISION && next.revision == n + 1
    requires next.state.Editing? || next.state.ReadyForReview?
    requires Revise(s, s.drafts[n], next, commits).Ok?
    ensures Chain(Revise(s, s.drafts[n], next, commits).value, n + 1)
    ensures Records(Revise(s, s.drafts[n], next, commits).value)
  {
  }

  lemma SubmitKeeps(s: Store, n: nat, now: int, commits: bool)
    requires Chain(s, n) && Records(s) && 1 <= n && s.drafts[n].state.Editing?
    requires Submit(s, s.drafts[n], now, commits).Ok?
    ensures Chain(Submit(s, s.drafts[n], now, commits).value.0, n)
    ensures Records(Submit(s, s.drafts[n], now, commits).value.0)
  {
  }

  lemma EditKeeps(s: Store, n: nat, builtIn: set<string>, request: Request, now: int, io: Io) returns (m: nat)
    requires Chain(s, n) && Records(s)
    ensures Chain(Edit(s, builtIn, request, now, io).0, m) && Records(Edit(s, builtIn, request, now, io).0)
    ensures n <= m <= n + 1
  {
    m := n;
    var k := request.sourceRevision;
    if Edit(s, builtIn, request, now, io).0 == s {
    } else if k + 1 in s.drafts {
      RecordKeeps(s, n, s.drafts[k + 1], Action(request), k, io.audits, Recovered);
    } else if s.drafts[k].content == request.content {
      var source := s.drafts[k];
      if source.state.ReadyForReview? {
        RecordKeeps(s, n, source, Submitted, k, io.audits, Recovered);
      } else {
        SubmitKeeps(s, n, now, io.commits);
        var t := Submit(s, source, now, io.commits).value;
        RecordKeeps(t.0, n, t.1, Submitted, k, io.audits, SubmittedNow);
      }
    } else {
      var next := Draft(s.drafts[k].persona, k + 1, Target(request), request.content, now, now);
      ReviseKeeps(s, n, next, io.commits);
      m := n + 1;
      RecordKeeps(Revise(s, s.drafts[k], next, io.commits).value, m, next, Action(request), k, io.audits,
                  if request.submit then SubmittedNow else Saved);
    }
  }

  lemma CreateKeeps(s: Store, n: nat, d: Draft) returns (m: nat)
    requires Chain(s, n) && Records(s)
    ensures Chain(Create(s, d), m) && Records(Create(s, d)) && n <= m
  {
    m := if Create(s, d) == s then n else 1;
  }

  /** Whatever happens, including failed and half-done edits, the revisions form one such chain. */
  lemma {:induction false} EveryRunIsAChain(steps: seq<Step>) returns (n: nat)
    ensures Chain(Run(steps), n) && Records(Run(steps))
  {
    if steps == [] {
      n := 0;
    } else {
      var before := Run(steps[..|steps| - 1]);
      n := EveryRunIsAChain(steps[..|steps| - 1]);
      match steps[|steps| - 1]
      case Creates(d) => n := CreateKeeps(before, n, d);
      case Edits(builtIn, request, now, io) => n := EditKeeps(before, n, builtIn, request, now, io);
      case Selects(persona, touched) =>
        assert Chain(before.(selected := persona, touched := touched), n);
    }
  }

  lemma {:induction false} ChainHolds(steps: seq<Step>)
    ensures Inv(Run(steps))
  {
    var n := EveryRunIsAChain(steps);
  }

  /** Repeating the last successful edit, at whatever time, answers with the same Draft and changes nothing. */
  lemma RepeatedEditAddsNothing(s: Store, builtIn: set<string>, request: Request, now: int, later: int, io: Io, again: Io)
    requires Inv(s) && Edit(s, builtIn, request, now, io).1.Ok? && again.audits
    ensures var (t, first) := Edit(s, builtIn, request, now, io);
            Edit(t, builtIn, request, later, again) == (t, Ok((first.value.0, Recovered)))
  {
    var n :| Chain(s, n);
    var (t, first) := Edit(s, builtIn, request, now, io);
    var k := request.sourceRevision;
    if k + 1 in s.drafts {
      assert t.drafts == s.drafts;
      assert t.audits[AuditId(k + 1, Action(request)) := t.audits[AuditId(k + 1, Action(request))]] == t.audits;
    } else if s.drafts[k].content == request.content {
      UnchangedRepeats(s, s.drafts[k], request, now, later, io, again);
    } else {
      assert t.drafts[k + 1] == first.value.0;
      assert t.audits[AuditId(k + 1, Action(request)) := t.audits[AuditId(k + 1, Action(request))]] == t.audits;
    }
  }

  lemma UnchangedRepeats(s: Store, source: Draft, request: Request, now: int, later: int, io: Io, again: Io)
    requires source.revision in s.drafts && s.drafts[source.revision] == source
    requires source.content == request.content && again.audits
    requires EditUnchanged(s, source, request, now, io).1.Ok?
    ensures var (t, first) := EditUnchanged(s, source, request, now, io);
            && source.revision in t.drafts && t.drafts[source.revision] == first.value.0
            && t.selected == s.selected && (forall r :: r in t.drafts <==> r in s.drafts)
            && first.value.0.content == source.content && first.value.0.persona == source.persona
            && first.value.0.revision == source.revision
            && EditUnchanged(t, first.value.0, request, later, again) == (t, Ok((first.value.0, Recovered)))
  {
    var (t, first) := EditUnchanged(s, source, request, now, io);
    if request.submit {
      var id := AuditId(source.revision, Submitted);
      assert t.audits[id := t.audits[id]] == t.audits;
    }
  }

  /** An edit that was cut off between its transaction and its audit is completed by the same request. */
  lemma RetryCompletesEdit(s: Store, builtIn: set<string>, request: Request, now: int, later: int, again: Io)
    requires Inv(s) && again.audits
    requires Edit(s, builtIn, request, now, Io(true, false)).0 != s
    ensures var t := Edit(s, builtIn, request, now, Io(true, false)).0;
            var done := Edit(t, builtIn, request, later, again);
            && done.1.Ok? && done.1.value.1 == Recovered
            && done.1.value.0.content == request.content && done.1.value.0.state == Target(request)
            && done.0.drafts == t.drafts
            && AuditId(done.1.value.0.revision, Action(request)) in done.0.audits
  {
    var n :| Chain(s, n);
    var t := Edit(s, builtIn, request, now, Io(true, false)).0;
    var k := request.sourceRevision;
    if s.drafts[k].content == request.content && k + 1 !in s.drafts {
      assert AuditId(k, Submitted) !in s.audits;
      assert t.drafts[k].state.ReadyForReview? && t.drafts[k].content == request.content;
    } else {
      assert k + 1 !in s.drafts;
      assert AuditId(k + 1, Action(request)) !in s.audits;
      assert k + 1 in t.drafts && t.drafts[k + 1].state == Target(request);
    }
  }

  /** The submission on record for a revision: when it was submitted in place, or created by a submitted edit. */
  predicate FaithfulAt(s: Store, n: int)
  {
    var id := AuditId(n, Submitted);
    n in s.drafts && s.drafts[n].state.ReadyForReview? && id in s.audits ==>
      || s.audits[id] == Audit(n, ReadyForReview, s.drafts[n].updatedAt)
      || s.audits[id] == Audit(n - 1, ReadyForReview, s.drafts[n].updatedAt)
  }

  ghost predicate Faithful(s: Store)
  {
    forall n :: FaithfulAt(s, n)
  }

  lemma AuditedFaithful(s: Store, d: Draft, action: AuditAction, sourceRevision: int, stores: bool, done: Disposition)
    requires Faithful(s) && d.revision in s.drafts && s.drafts[d.revision] == d
    requires action.Submitted? ==> d.state.ReadyForReview? && d.revision - 1 <= sourceRevision <= d.revision
    ensures Faithful(Audited(s, d, action, sourceRevision, stores, done).0)
  {
    var t := Audited(s, d, action, sourceRevision, stores, done).0;
    forall n
      ensures FaithfulAt(t, n)
    {
      assert FaithfulAt(s, n);
    }
  }

  lemma ReviseFaithful(s: Store, n: nat, next: Draft, commits: bool)
    requires Chain(s, n) && Records(s) && Faithful(s) && 1 <= n && next.revision == n + 1
    requires Revise(s, s.drafts[n], next, commits).Ok?
    ensures Faithful(Revise(s, s.drafts[n], next, commits).value)
  {
    var t := Revise(s, s.drafts[n], next, commits).value;
    forall k
      ensures FaithfulAt(t, k)
    {
      assert FaithfulAt(s, k);
    }
  }

  lemma SubmitFaithful(s: Store, n: nat, now: int, commits: bool)
    requires Chain(s, n) && Records(s) && Faithful(s) && 1 <= n && s.drafts[n].state.Editing?
    requires Submit(s, s.drafts[n], now, commits).Ok?
    ensures Faithful(Submit(s, s.drafts[n], now, commits).value.0)
  {
    var t := Submit(s, s.drafts[n], now, commits).value.0;
    forall k
      ensures FaithfulAt(t, k)
    {
      assert FaithfulAt(s, k);
    }
  }

  lemma EditFaithful(s: Store, n: nat, builtIn: set<string>, request: Request, now: int, io: Io)
    requires Chain(s, n) && Records(s) && Faithful(s)
    ensures Faithful(Edit(s, builtIn, request, now, io).0)
  {
    var k := request.sourceRevision;
    if Edit(s, builtIn, request, now, io).0 == s {
    } else if k + 1 in s.drafts {
      AuditedFaithful(s, s.drafts[k + 1], Action(request), k, io.audits, Recovered);
    } else if s.drafts[k].content == request.content {
      if s.drafts[k].state.ReadyForReview? {
        AuditedFaithful(s, s.drafts[k], Submitted, k, io.audits, Recovered);
      } else {
        SubmitFaithful(s, n, now, io.commits);
        var t := Submit(s, s.drafts[k], now, io.commits).value;
        AuditedFaithful(t.0, t.1, Submitted, k, io.audits, SubmittedNow);
      }
    } else {
      var next := Draft(s.drafts[k].persona, k + 1, Target(request), request.content, now, now);
      ReviseFaithful(s, n, next, io.commits);
      AuditedFaithful(Revise(s, s.drafts[k], next, io.commits).value, next, Action(request), k, io.audits,
                      if request.submit then SubmittedNow else Saved);
    }
  }

  lemma CreateFaithful(s: Store, n: nat, d: Draft)
    requires Chain(s, n) && Records(s) && Faithful(s)
    ensures Faithful(Create(s, d))
  {
    forall k
      ensures FaithfulAt(Create(s, d), k)
    {
      assert FaithfulAt(s, k);
    }
  }

  lemma {:induction false} RunFaithful(steps: seq<Step>)
    ensures Faithful(Run(steps))
  {
    if steps != [] {
      var before := Run(steps[..|steps| - 1]);
      var n := EveryRunIsAChain(steps[..|steps| - 1]);
      RunFaithful(steps[..|steps| - 1]);
      match steps[|steps| - 1]
      case Creates(d) => CreateFaithful(before, n, d);
      case Edits(builtIn, request, now, io) => EditFaithful(before, n, builtIn, request, now, io);
      case Selects(persona, touched) =>
        forall k
          ensures FaithfulAt(before.(selected := persona, touched := touched), k)
        {
          assert FaithfulAt(before, k);
        }
    }
  }

  /** A revision that is ready, the last one, and within reach of an edit. */
  predicate Resubmittable(s: Store, builtIn: set<string>, n: int)
  {
    && 1 <= n < MAX_REVISION && n in s.drafts && n + 1 !in s.drafts && s.drafts[n].revision == n
    && s.drafts[n].state.ReadyForReview? && s.selected == Some(s.drafts[n].persona) && s.drafts[n].persona in builtIn
  }

  /**
   Submitting a ready revision again as it stands, exactly: the audit that it writes must not be on record,
   or must be the same one.
   */
  lemma ResubmissionIff(s: Store, builtIn: set<string>, n: int, later: int, commits: bool)
    requires Resubmittable(s, builtIn, n)
    ensures var id := AuditId(n, Submitted);
            var (t, answer) := Edit(s, builtIn, Request(n, s.drafts[n].content, true), later, Io(commits, true));
            && (answer.Ok? <==> id !in s.audits || s.audits[id] == Audit(n, ReadyForReview, s.drafts[n].updatedAt))
            && (answer.Ok? ==> answer == Ok((s.drafts[n], Recovered)))
            && (answer.Err? ==> t == s && answer == Err(RuntimeUnavailable))
  {
  }

  /**
   In reachable stores that is a matter of how the revision came to be ready: submitted in place, it can be
   submitted again; created by a submitted edit whose audit is on record, it never can.
   */
  lemma ResubmissionConflicts(steps: seq<Step>, builtIn: set<string>, n: int, later: int, commits: bool)
    requires Resubmittable(Run(steps), builtIn, n)
    ensures var s := Run(steps);
            var id := AuditId(n, Submitted);
            Edit(s, builtIn, Request(n, s.drafts[n].content, true), later, Io(commits, true)).1.Err? <==>
            id in s.audits && s.audits[id].sourceRevision == n - 1
  {
    var s := Run(steps);
    RunFaithful(steps);
    assert FaithfulAt(s, n);
    ResubmissionIff(s, builtIn, n, later, commits);
  }

  /** A first Draft, edited and submitted in one request. */
  function SubmittedEdit(persona: string, first: Content, second: Content, created: nat, now: int): seq<Step>
  {
    [Selects(Some(persona), 0),
     Creates(Draft(persona, 1, Editing, first, created, created)),
     Edits({persona}, Request(1, second, true), now, Io(true, true))]
  }

  lemma SubmittedEditRuns(persona: string, first: Content, second: Content, created: nat, now: int)
    requires first != second && created <= now
    ensures var s := Run(SubmittedEdit(persona, first, second, created, now));
            && s.drafts == map[1 := Draft(persona, 1, Superseded, first, created, now),
                               2 := Draft(persona, 2, ReadyForReview, second, now, now)]
            && s.selected == Some(persona) && s.audits == map[AuditId(2, Submitted) := Audit(1, ReadyForReview, now)]
  {
    var steps := SubmittedEdit(persona, first, second, created, now);
    assert steps[..2] == [steps[0], steps[1]] && steps[..1] == [steps[0]];
    assert [steps[0], steps[1]][..1] == [steps[0]];
    assert Run([steps[0]]) == Store(Some(persona), 0, map[], {}, map[]);
    assert Run([steps[0], steps[1]]) ==
           Store(Some(persona), 0, map[1 := Draft(persona, 1, Editing, first, created, created)], {}, map[]);
  }

  /** A run that conflicts: the edit that created revision 2 submitted it, and the same content is submitted again. */
  lemma SubmittedEditConflicts(persona: string, first: Content, second: Content, created: nat, now: int, later: int)
    requires first != second && created <= now
    ensures var s := Run(SubmittedEdit(persona, first, second, created, now));
            && Resubmittable(s, {persona}, 2)
            && Edit(s, {persona}, Request(2, second, true), later, Io(true, true)) == (s, Err(RuntimeUnavailable))
  {
    SubmittedEditRuns(persona, first, second, created, now);
    ResubmissionIff(Run(SubmittedEdit(persona, first, second, created, now)), {persona}, 2, later, true);
  }

  /** What `latestModelDraft` finds from `current` on, looking at `revision` next. */
  function Follow(drafts: map<int, Draft>, initial: Draft, current: Draft, revision: int): Result<Draft, Error>
    decreases MAX_REVISION - revision
  {
    if revision > MAX_REVISION || revision !in drafts then
      if current.state.Superseded? then Err(TargetUnavailable) else Ok(current)
    else if drafts[revision].persona != initial.persona || drafts[revision].revision != revision then
      Err(TargetUnavailable)
    else Follow(drafts, initial, drafts[revision], revision + 1)
  }

  method LatestModelDraft(drafts: map<int, Draft>, initial: Draft) returns (r: Result<Draft, Error>)
    ensures r == Follow(drafts, initial, initial, initial.revision + 1)
  {
    var current := initial;
    var revision := initial.revision + 1;
    while revision <= MAX_REVISION
      invariant Follow(drafts, initial, initial, initial.revision + 1) == Follow(drafts, initial, current, revision)
      decreases MAX_REVISION - revision
    {
      if revision !in drafts {
        return if current.state.Superseded? then Err(TargetUnavailable) else Ok(current);
      }
      var candidate := drafts[revision];
      if candidate.persona != initial.persona || candidate.revision != revision {
        return Err(TargetUnavailable);
      }
      current := candidate;
      revision := revision + 1;
    }
    return if current.state.Superseded? then Err(TargetUnavailable) else Ok(current);
  }

  /** The rows below the latest one that `latestDraft` accepts. */
  predicate Sound(drafts: map<int, Draft>, revision: int)
  {
    && revision in drafts && drafts[revision].revision == revision
    && (revision > 1 ==> revision - 1 in drafts && drafts[revision - 1].state.Superseded?
                         && drafts[revision].persona == drafts[revision - 1].persona)
  }

  predicate SoundTo(drafts: map<int, Draft>, n: int)
  {
    forall r :: 1 <= r <= n ==> Sound(drafts, r)
  }

  /** `latest` is the row that the store returns for the highest revision, if there is any. */
  method LatestDraft(drafts: map<int, Draft>, latest: Option<int>) returns (r: Result<Option<Draft>, Error>)
    requires latest.Some? ==> latest.value in drafts
    ensures latest.None? ==> r == Ok(None)
    ensures latest.Some? ==>
              r == var n := latest.value;
                   if drafts[n].revision == n && 1 <= n <= MAX_REVISION && !drafts[n].state.Superseded? && SoundTo(drafts, n)
                   then Ok(Some(drafts[n]))
                   else Err(RuntimeUnavailable)
  {
    if latest.None? {
      return Ok(None);
    }
    var n := latest.value;
    if drafts[n].revision != n || n < 1 || n > MAX_REVISION || drafts[n].state.Superseded? {
      return Err(RuntimeUnavailable);
    }
    var current: Option<Draft> := None;
    var revision := 1;
    while revision <= n
      invariant 1 <= revision <= n + 1
      invariant SoundTo(drafts, revision - 1)
      invariant revision > 1 ==> revision - 1 in drafts && current == Some(drafts[revision - 1])
      invariant revision == 1 ==> current == None
    {
      if revision !in drafts || drafts[revision].revision != revision ||
         (current.Some? && (!current.value.state.Superseded? || drafts[revision].persona != current.value.persona))
      {
        assert !Sound(drafts, revision);
        return Err(RuntimeUnavailable);
      }
      assert Sound(drafts, revision);
      current := Some(drafts[revision]);
      revision := revision + 1;
    }
    return Ok(current);
  }

  lemma {:induction false} FollowChain(s: Store, n: nat, k: nat, initial: Draft)
    requires Chain(s, n) && 1 <= k <= n && initial.persona == s.drafts[1].persona
    ensures Follow(s.drafts, initial, s.drafts[k], k + 1) == Ok(s.drafts[n])
    decreases n - k
  {
    if k < n {
      FollowChain(s, n, k + 1, initial);
    }
  }

  /**
   In every reachable store both readers find the last revision: the one that walks up from any stored
   revision, and the one that checks the whole chain below the highest row.
   */
  lemma BothReadersAgree(steps: seq<Step>, n: int, k: int)
    requires var drafts := Run(steps).drafts;
             n in drafts && k in drafts && forall r :: r in drafts ==> r <= n
    ensures var drafts := Run(steps).drafts;
            && Follow(drafts, drafts[k], drafts[k], drafts[k].revision + 1) == Ok(drafts[n])
            && drafts[n].revision == n && 1 <= n <= MAX_REVISION && !drafts[n].state.Superseded?
            && SoundTo(drafts, n)
  {
    var s := Run(steps);
    var m := EveryRunIsAChain(steps);
    ChainReaders(s, m, n, k);
  }

  lemma ChainReaders(s: Store, m: nat, n: int, k: int)
    requires Chain(s, m) && n in s.drafts && k in s.drafts && forall r :: r in s.drafts ==> r <= n
    ensures Follow(s.drafts, s.drafts[k], s.drafts[k], s.drafts[k].revision + 1) == Ok(s.drafts[n])
    ensures s.drafts[n].revision == n && 1 <= n <= MAX_REVISION && !s.drafts[n].state.Superseded? && SoundTo(s.drafts, n)
  {
    assert m in s.drafts;
    FollowChain(s, m, k, s.drafts[k]);
  }
}
