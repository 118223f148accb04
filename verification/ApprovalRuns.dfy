/** Guarantees of the approval store over every interleaving of calls. */
module ApprovalRuns {
  import opened Wrappers
  import opened Seqs
  import opened Domain
  import opened Ledger
  import opened Analyzer
  import opened Approval

  datatype Call =
    | CallRequest(record: ApprovalRecord)
    | CallApprove(
        id: string, expectedActionId: string, actor: string, now: nat, allowlistEntryId: string, nonce: string)
    | CallReject(id: string, actor: string, now: nat)
    | CallExpire(id: string, now: nat)
    | CallSupersede(id: string, supersededBy: string)
    | CallAdapterRejection(adapter: string, reason: string)

  /** The store together with every claim it has handed out. */
  datatype History = History(store: StoreState, issued: seq<CapabilityLeaseClaims>)

  function Step(h: History, call: Call): History {
    match call
    case CallRequest(record) => h.(store := Request(h.store, record))
    case CallApprove(id, expected, actor, now, entry, nonce) =>
      var (s, r) := Approve(h.store, id, expected, actor, now, entry, nonce);
      History(s, if r.Ok? then h.issued + [r.value] else h.issued)
    case CallReject(id, actor, now) => h.(store := Reject(h.store, id, actor, now).0)
    case CallExpire(id, now) => h.(store := Expire(h.store, id, now).0)
    case CallSupersede(id, newer) => h.(store := Supersede(h.store, id, newer).0)
    case CallAdapterRejection(adapter, reason) => h.(store := RecordAdapterRejection(h.store, adapter, reason))
  }

  /** Records enter the store pending. */
  predicate Fresh(call: Call) {
    call.CallRequest? ==> call.record.state == Pending
  }

  function After(h: History, calls: seq<Call>): History {
    if calls == [] then h else Step(After(h, calls[..|calls| - 1]), calls[|calls| - 1])
  }

  const NO_HISTORY := History(EMPTY_STORE, [])

  // ----- Replay -----

  /** What the ledger says about one approval. */
  datatype Entry = Entry(id: string, proposalId: string, actionId: string, state: ApprovalState)

  function EntryOf(r: ApprovalRecord): Entry {
    Entry(r.id, r.proposalId, r.actionId, r.state)
  }

  function EntryHasId(id: string): Entry -> bool {
    (e: Entry) => e.id == id
  }

  function SetState(entries: seq<Entry>, id: string, state: ApprovalState): seq<Entry> {
    match Position(entries, EntryHasId(id))
    case None => entries
    case Some(k) => entries[k := entries[k].(state := state)]
  }

  function ReplayEvent(entries: seq<Entry>, kind: AuditEventKind): seq<Entry> {
    match kind
    case ApprovalRequested(id, proposal, action) => entries + [Entry(id, proposal, action, Pending)]
    case ApprovalDecision(id, _, outcome) =>
      SetState(entries, id, if outcome == OutcomeApproved then ApprovalState.Approved else ApprovalState.Rejected)
    case ApprovalExpired(id) => SetState(entries, id, Expired)
    case ApprovalSuperseded(id, _) => SetState(entries, id, Superseded)
    case _ => entries
  }

  function Replay(events: seq<AuditEvent>): seq<Entry> {
    if events == [] then [] else ReplayEvent(Replay(events[..|events| - 1]), events[|events| - 1].kind)
  }

  lemma ReplayAppend(events: seq<AuditEvent>, e: AuditEvent)
    ensures Replay(events + [e]) == ReplayEvent(Replay(events), e.kind)
  {
    assert (events + [e])[..|events + [e]| - 1] == events;
  }

  // ----- The invariant -----

  /** The approval that an event closes. */
  function ClosedBy(e: AuditEvent): Option<string> {
    match e.kind
    case ApprovalDecision(id, _, _) => Some(id)
    case ApprovalExpired(id) => Some(id)
    case ApprovalSuperseded(id, _) => Some(id)
    case _ => None
  }

  function ApprovedBy(e: AuditEvent): Option<string> {
    match e.kind
    case ApprovalDecision(id, _, outcome) => if outcome == OutcomeApproved then Some(id) else None
    case _ => None
  }

  function RequestedBy(e: AuditEvent): Option<string> {
    match e.kind
    case ApprovalRequested(id, _, _) => Some(id)
    case _ => None
  }

  ghost predicate RequestBefore(events: seq<AuditEvent>, k: nat, id: string)
    requires k <= |events|
  {
    exists j :: 0 <= j < k && RequestedBy(events[j]) == Some(id)
  }

  ghost predicate ClosedAfterRequest(events: seq<AuditEvent>) {
    forall k :: 0 <= k < |events| && ClosedBy(events[k]).Some? ==> RequestBefore(events, k, ClosedBy(events[k]).value)
  }

  /** Each closed id was closed once, and its first record is no longer pending. */
  ghost predicate ClosedOnce(s: StoreState) {
    && Distinct(Project(s.ledger, ClosedBy))
    && forall id :: id in Project(s.ledger, ClosedBy) ==> Show(s, id).Some? && Show(s, id).value.state != Pending
  }

  /** An entry tells of a record, except that it takes a record that arrived closed for pending. */
  predicate TellsOf(e: Entry, r: ApprovalRecord) {
    e == EntryOf(r) || (r.state != Pending && e == EntryOf(r).(state := Pending))
  }

  ghost predicate Tell(entries: seq<Entry>, records: seq<ApprovalRecord>) {
    |entries| == |records| && forall k :: 0 <= k < |records| ==> TellsOf(entries[k], records[k])
  }

  ghost predicate IssuedAgrees(h: History) {
    && Map(h.issued, (c: CapabilityLeaseClaims) => c.approvalId) == Project(h.store.ledger, ApprovedBy)
    && (forall c :: c in h.issued ==> c.leaseId == "lease-" + c.approvalId)
    && Distinct(Project(h.store.ledger, ApprovedBy))
    && (forall id :: id in Project(h.store.ledger, ApprovedBy) ==> id in Project(h.store.ledger, ClosedBy))
  }

  /** The ledger accounts for every record. */
  ghost predicate Accounts(s: StoreState) {
    && Tell(Replay(s.ledger), s.records)
    && Project(s.ledger, RequestedBy) == Map(s.records, (r: ApprovalRecord) => r.id)
    && ClosedAfterRequest(s.ledger)
  }

  ghost predicate Inv(h: History) {
    Accounts(h.store) && ClosedOnce(h.store) && IssuedAgrees(h)
  }

  /** The ledger alone rebuilds the records. */
  ghost predicate Rebuilds(s: StoreState) {
    Replay(s.ledger) == Map(s.records, EntryOf)
  }

  /** Whoever is no longer pending was closed by an event. */
  ghost predicate ClosedByEvents(s: StoreState) {
    forall id :: Show(s, id).Some? && Show(s, id).value.state != Pending ==> id in Project(s.ledger, ClosedBy)
  }

  // ----- Every call keeps it -----

  lemma FirstEntry(entries: seq<Entry>, records: seq<ApprovalRecord>, id: string)
    requires Tell(entries, records)
    ensures Position(entries, EntryHasId(id)) == IndexOf(records, id)
  {
    assert forall i :: 0 <= i < |records| ==> EntryHasId(id)(entries[i]) == HasId(id)(records[i]);
    if IndexOf(records, id).Some? {
      PositionUnique(entries, EntryHasId(id), IndexOf(records, id).value);
    }
  }

  lemma ShowIsFirst(s: StoreState, id: string)
    ensures Show(s, id) == match IndexOf(s.records, id) case None => None case Some(k) => Some(s.records[k])
  {}

  lemma RequestedLonger(events: seq<AuditEvent>, e: AuditEvent)
    requires ClosedAfterRequest(events)
    requires ClosedBy(e).Some? ==> RequestBefore(events, |events|, ClosedBy(e).value)
    ensures ClosedAfterRequest(events + [e])
  {
    var longer := events + [e];
    forall k | 0 <= k < |longer| && ClosedBy(longer[k]).Some?
      ensures RequestBefore(longer, k, ClosedBy(longer[k]).value)
    {
      var id := ClosedBy(longer[k]).value;
      assert RequestBefore(events, k, id);
      var j :| 0 <= j < k && RequestedBy(events[j]) == Some(id);
      assert longer[j] == events[j];
    }
  }

  lemma RecordWasRequested(s: StoreState, index: nat)
    requires Accounts(s) && index < |s.records|
    ensures RequestBefore(s.ledger, |s.ledger|, s.records[index].id)
  {
    var id := s.records[index].id;
    assert Map(s.records, (r: ApprovalRecord) => r.id)[index] == id;
    ProjectedFrom(s.ledger, RequestedBy, id);
  }

  /** A request adds a pending entry, and a record that only a first request for its id can be found by. */
  lemma RequestFacts(s: StoreState, record: ApprovalRecord)
    ensures var s' := Request(s, record);
            && Replay(s'.ledger) == Replay(s.ledger) + [EntryOf(record).(state := Pending)]
            && Project(s'.ledger, RequestedBy) == Project(s.ledger, RequestedBy) + [record.id]
            && Project(s'.ledger, ClosedBy) == Project(s.ledger, ClosedBy)
            && Project(s'.ledger, ApprovedBy) == Project(s.ledger, ApprovedBy)
            && (ClosedAfterRequest(s.ledger) ==> ClosedAfterRequest(s'.ledger))
            && forall id :: Show(s', id)
                            == if Show(s, id).Some? then Show(s, id) else if id == record.id then Some(record) else None
  {
    hide Project, Replay;
    var s' := Request(s, record);
    var kind := ApprovalRequested(record.id, record.proposalId, record.actionId);
    var e := NextEvent(s.ledger, "approval", "approval", kind);
    ReplayAppend(s.ledger, e);
    ProjectAppend(s.ledger, e, RequestedBy);
    ProjectAppend(s.ledger, e, ClosedBy);
    ProjectAppend(s.ledger, e, ApprovedBy);
    if ClosedAfterRequest(s.ledger) {
      RequestedLonger(s.ledger, e);
    }
    forall id
      ensures Show(s', id) == if Show(s, id).Some? then Show(s, id) else if id == record.id then Some(record) else None
    {
      PositionStable(s.records, [record], HasId(id));
      ShowIsFirst(s, id);
      ShowIsFirst(s', id);
      if Show(s, id).None? && id == record.id {
        assert HasId(id)(s'.records[|s.records|]);
      }
    }
  }

  /** A request keeps the invariant; it keeps the ledger sufficient exactly when its record arrives pending. */
  lemma RequestKeepsInv(h: History, record: ApprovalRecord)
    requires Inv(h)
    ensures var h' := h.(store := Request(h.store, record));
            && Inv(h')
            && (Rebuilds(h'.store) <==> Rebuilds(h.store) && record.state == Pending)
            && (ClosedByEvents(h'.store)
                <==> ClosedByEvents(h.store) && (record.state == Pending || Show(h.store, record.id).Some?))
  {
    hide Project, Replay, ClosedAfterRequest, Recorded, Show, ClosedOnce, ClosedByEvents, Tell, IssuedAgrees;
    var s := h.store;
    RequestFacts(s, record);
    RequestTells(Replay(s.ledger), s.records, record);
    RequestKeepsClosed(s, Request(s, record), record);
    RequestKeepsIssued(h, h.(store := Request(s, record)));
    assert Map(Request(s, record).records, (r: ApprovalRecord) => r.id)
        == Map(s.records, (r: ApprovalRecord) => r.id) + [record.id];
  }

  lemma RequestKeepsIssued(h: History, h': History)
    requires IssuedAgrees(h) && h'.issued == h.issued
    requires Project(h'.store.ledger, ApprovedBy) == Project(h.store.ledger, ApprovedBy)
    requires Project(h'.store.ledger, ClosedBy) == Project(h.store.ledger, ClosedBy)
    ensures IssuedAgrees(h')
  {
    hide Project;
  }

  lemma RequestKeepsClosed(s: StoreState, s': StoreState, record: ApprovalRecord)
    requires ClosedOnce(s) && Project(s'.ledger, ClosedBy) == Project(s.ledger, ClosedBy)
    requires forall id :: Show(s', id)
                          == if Show(s, id).Some? then Show(s, id) else if id == record.id then Some(record) else None
    ensures ClosedOnce(s')
    ensures ClosedByEvents(s')
            <==> ClosedByEvents(s) && (record.state == Pending || Show(s, record.id).Some?)
  {
    hide Project, Show;
    var closed := Project(s.ledger, ClosedBy);
    if record.state != Pending && Show(s, record.id).None? {
      assert Show(s', record.id) == Some(record) && record.id !in closed;
    }
    if !ClosedByEvents(s) {
      var id :| Show(s, id).Some? && Show(s, id).value.state != Pending && id !in closed;
      assert Show(s', id) == Show(s, id);
    }
  }

  lemma RequestTells(entries: seq<Entry>, records: seq<ApprovalRecord>, record: ApprovalRecord)
    requires Tell(entries, records)
    ensures var longer := entries + [EntryOf(record).(state := Pending)];
            && Tell(longer, records + [record])
            && (longer == Map(records + [record], EntryOf)
                <==> entries == Map(records, EntryOf) && record.state == Pending)
  {
    var longer := entries + [EntryOf(record).(state := Pending)];
    var kept := Map(records, EntryOf);
    assert Map(records + [record], EntryOf) == kept + [EntryOf(record)];
    assert longer[|records|].state == Pending;
    assert longer[..|records|] == entries && (kept + [EntryOf(record)])[..|records|] == kept;
    assert (kept + [EntryOf(record)])[|records|] == EntryOf(record);
  }

  /** Closing the first pending record with an id, in the store and in its replay. */
  lemma CloseRecords(
      entries: seq<Entry>, records: seq<ApprovalRecord>, index: nat, state: ApprovalState, id: string)
    requires Tell(entries, records)
    requires IndexOf(records, id) == Some(index) && records[index].state == Pending && state != Pending
    ensures var closed := records[index := records[index].(state := state)];
            && Tell(SetState(entries, id, state), closed)
            && (SetState(entries, id, state) == Map(closed, EntryOf) <==> entries == Map(records, EntryOf))
            && Map(closed, (r: ApprovalRecord) => r.id) == Map(records, (r: ApprovalRecord) => r.id)
            && forall other :: IndexOf(closed, other) == IndexOf(records, other)
  {
    var closed := records[index := records[index].(state := state)];
    FirstHasId(records, id);
    FirstEntry(entries, records, id);
    assert SetState(entries, id, state) == entries[index := EntryOf(closed[index])];
    CloseTells(entries, records, closed, index);
    forall other
      ensures IndexOf(closed, other) == IndexOf(records, other)
    {
      assert forall i :: 0 <= i < |records| ==> HasId(other)(closed[i]) == HasId(other)(records[i]);
      if IndexOf(records, other).Some? {
        PositionUnique(closed, HasId(other), IndexOf(records, other).value);
      }
    }
  }

  lemma CloseTells(entries: seq<Entry>, records: seq<ApprovalRecord>, closed: seq<ApprovalRecord>, index: nat)
    requires Tell(entries, records) && index < |records| && records[index].state == Pending
    requires |closed| == |records| && closed == records[index := closed[index]]
    ensures Tell(entries[index := EntryOf(closed[index])], closed)
    ensures entries[index := EntryOf(closed[index])] == Map(closed, EntryOf) <==> entries == Map(records, EntryOf)
  {
    var told := entries[index := EntryOf(closed[index])];
    assert TellsOf(entries[index], records[index]);
    if told == Map(closed, EntryOf) {
      forall k | 0 <= k < |records|
        ensures entries[k] == EntryOf(records[k])
      {
        assert k != index ==> told[k] == EntryOf(closed[k]);
      }
    }
  }

  lemma CloseKeepsClosedOnce(s: StoreState, s': StoreState, index: nat, state: ApprovalState, id: string)
    requires ClosedOnce(s) && IndexOf(s.records, id) == Some(index)
    requires s.records[index].state == Pending && state != Pending
    requires s'.records == s.records[index := s.records[index].(state := state)]
    requires Project(s'.ledger, ClosedBy) == Project(s.ledger, ClosedBy) + [id]
    requires forall other :: IndexOf(s'.records, other) == IndexOf(s.records, other)
    ensures ClosedOnce(s') && id !in Project(s.ledger, ClosedBy)
    ensures ClosedByEvents(s') <==> ClosedByEvents(s)
  {
    hide Project, ClosedOnce, ClosedByEvents, IndexOf;
    CloseShows(s, s', index, state, id);
    ShowIsFirst(s, id);
    ClosedGrows(s, s', id);
  }

  lemma CloseShows(s: StoreState, s': StoreState, index: nat, state: ApprovalState, id: string)
    requires IndexOf(s.records, id) == Some(index)
    requires s'.records == s.records[index := s.records[index].(state := state)]
    requires forall other :: IndexOf(s'.records, other) == IndexOf(s.records, other)
    ensures Show(s', id) == Some(s.records[index].(state := state))
    ensures forall other :: other != id ==> Show(s', other) == Show(s, other)
  {
    hide Show, IndexOf;
    FirstHasId(s.records, id);
    ShowIsFirst(s', id);
    forall other | other != id
      ensures Show(s', other) == Show(s, other)
    {
      ShowIsFirst(s, other);
      ShowIsFirst(s', other);
      FirstHasId(s.records, other);
    }
  }

  lemma FirstHasId(records: seq<ApprovalRecord>, id: string)
    ensures IndexOf(records, id).Some? ==>
              IndexOf(records, id).value < |records| && records[IndexOf(records, id).value].id == id
  {
    if IndexOf(records, id).Some? {
      assert HasId(id)(records[IndexOf(records, id).value]);
    }
  }

  lemma ClosedGrows(s: StoreState, s': StoreState, id: string)
    requires ClosedOnce(s) && Project(s'.ledger, ClosedBy) == Project(s.ledger, ClosedBy) + [id]
    requires Show(s, id).Some? && Show(s, id).value.state == Pending
    requires Show(s', id).Some? && Show(s', id).value.state != Pending
    requires forall other :: other != id ==> Show(s', other) == Show(s, other)
    ensures ClosedOnce(s') && id !in Project(s.ledger, ClosedBy)
    ensures ClosedByEvents(s') <==> ClosedByEvents(s)
  {
    hide Project, Show;
    var before, after := Project(s.ledger, ClosedBy), Project(s'.ledger, ClosedBy);
    assert forall x :: x in after <==> x in before || x == id;
    if !ClosedByEvents(s) {
      var other :| Show(s, other).Some? && Show(s, other).value.state != Pending && other !in before;
      assert Show(s', other) == Show(s, other);
    }
  }

  /** The event kind that closes approval `id` with `state`. */
  predicate Closes(kind: AuditEventKind, id: string, state: ApprovalState) {
    match kind
    case ApprovalDecision(i, _, outcome) =>
      i == id && state == if outcome == OutcomeApproved then ApprovalState.Approved else ApprovalState.Rejected
    case ApprovalExpired(i) => i == id && state == Expired
    case ApprovalSuperseded(i, _) => i == id && state == Superseded
    case _ => false
  }

  /** The claims handed out grow by the approval's own claim, and only on an approval. */
  predicate IssuedFor(
      issued: seq<CapabilityLeaseClaims>, issued': seq<CapabilityLeaseClaims>, id: string, state: ApprovalState)
  {
    if state == ApprovalState.Approved then
      |issued'| == |issued| + 1 && issued'[..|issued|] == issued
      && issued'[|issued|].approvalId == id && issued'[|issued|].leaseId == "lease-" + id
    else issued' == issued
  }

  lemma CloseProjects(s: StoreState, index: nat, state: ApprovalState, id: string, kind: AuditEventKind)
    requires index < |s.records| && Closes(kind, id, state)
    ensures var s' := Close(s, index, state, kind);
            && Replay(s'.ledger) == SetState(Replay(s.ledger), id, state)
            && Project(s'.ledger, RequestedBy) == Project(s.ledger, RequestedBy)
            && Project(s'.ledger, ClosedBy) == Project(s.ledger, ClosedBy) + [id]
            && Project(s'.ledger, ApprovedBy)
               == Extend(Project(s.ledger, ApprovedBy), if state == ApprovalState.Approved then Some(id) else None)
  {
    var e := NextEvent(s.ledger, "approval", "approval", kind);
    ReplayAppend(s.ledger, e);
    ProjectAppend(s.ledger, e, RequestedBy);
    ProjectAppend(s.ledger, e, ClosedBy);
    ProjectAppend(s.ledger, e, ApprovedBy);
  }

  lemma CloseKeepsAccounts(s: StoreState, index: nat, state: ApprovalState, id: string, kind: AuditEventKind)
    requires Accounts(s) && IndexOf(s.records, id) == Some(index) && Closes(kind, id, state)
    requires s.records[index].state == Pending && state != Pending
    ensures Accounts(Close(s, index, state, kind))
    ensures Rebuilds(Close(s, index, state, kind)) <==> Rebuilds(s)
  {
    hide Replay, Project, Tell, SetState;
    assert HasId(id)(s.records[index]);
    RecordWasRequested(s, index);
    RequestedLonger(s.ledger, NextEvent(s.ledger, "approval", "approval", kind));
    CloseProjects(s, index, state, id, kind);
    CloseRecords(Replay(s.ledger), s.records, index, state, id);
  }

  lemma CloseKeepsOnce(s: StoreState, index: nat, state: ApprovalState, id: string, kind: AuditEventKind)
    requires Accounts(s) && ClosedOnce(s) && IndexOf(s.records, id) == Some(index) && Closes(kind, id, state)
    requires s.records[index].state == Pending && state != Pending
    ensures ClosedOnce(Close(s, index, state, kind)) && id !in Project(s.ledger, ClosedBy)
    ensures ClosedByEvents(Close(s, index, state, kind)) <==> ClosedByEvents(s)
  {
    hide Replay, Project, Tell, SetState;
    CloseProjects(s, index, state, id, kind);
    CloseRecords(Replay(s.ledger), s.records, index, state, id);
    CloseKeepsClosedOnce(s, Close(s, index, state, kind), index, state, id);
  }

  /** What every step short of a request keeps, in both directions. */
  ghost predicate KeepsAll(h: History, h': History) {
    && Inv(h')
    && (Rebuilds(h'.store) <==> Rebuilds(h.store))
    && (ClosedByEvents(h'.store) <==> ClosedByEvents(h.store))
  }

  lemma CloseKeepsInv(h: History, h': History, index: nat, state: ApprovalState, id: string, kind: AuditEventKind)
    requires Inv(h) && IndexOf(h.store.records, id) == Some(index) && Closes(kind, id, state)
    requires h.store.records[index].state == Pending && state != Pending
    requires h'.store == Close(h.store, index, state, kind) && IssuedFor(h.issued, h'.issued, id, state)
    ensures KeepsAll(h, h')
  {
    hide Accounts, ClosedOnce, IssuedAgrees, Rebuilds, ClosedByEvents, Project, Closes, IssuedFor;
    CloseKeepsAccounts(h.store, index, state, id, kind);
    CloseKeepsOnce(h.store, index, state, id, kind);
    CloseProjects(h.store, index, state, id, kind);
    CloseKeepsIssued(h, h', id, state);
  }

  lemma CloseKeepsIssued(h: History, h': History, id: string, state: ApprovalState)
    requires IssuedAgrees(h) && id !in Project(h.store.ledger, ClosedBy)
    requires Project(h'.store.ledger, ClosedBy) == Project(h.store.ledger, ClosedBy) + [id]
    requires Project(h'.store.ledger, ApprovedBy)
             == Extend(Project(h.store.ledger, ApprovedBy), if state == ApprovalState.Approved then Some(id) else None)
    requires IssuedFor(h.issued, h'.issued, id, state)
    ensures IssuedAgrees(h')
  {
    if state == ApprovalState.Approved {
      var last := h'.issued[|h.issued|];
      assert h'.issued == h.issued + [last];
    }
  }

  lemma ApproveKeepsInv(h: History, call: Call)
    requires Inv(h) && call.CallApprove? && Succeeds(h, call)
    ensures KeepsAll(h, Step(h, call))
  {
    var index := IndexOf(h.store.records, call.id).value;
    assert HasId(call.id)(h.store.records[index]);
    CloseKeepsInv(h, Step(h, call), index, ApprovalState.Approved, call.id,
                  ApprovalDecision(call.id, call.actor, OutcomeApproved));
  }

  lemma RejectKeepsInv(h: History, call: Call)
    requires Inv(h) && call.CallReject? && Succeeds(h, call)
    ensures KeepsAll(h, Step(h, call))
  {
    CloseKeepsInv(h, Step(h, call), IndexOf(h.store.records, call.id).value, ApprovalState.Rejected, call.id,
                  ApprovalDecision(call.id, call.actor, OutcomeRejected));
  }

  lemma ExpireKeepsInv(h: History, call: Call)
    requires Inv(h) && call.CallExpire? && Succeeds(h, call)
    ensures KeepsAll(h, Step(h, call))
  {
    CloseKeepsInv(h, Step(h, call), IndexOf(h.store.records, call.id).value, Expired, call.id,
                  ApprovalExpired(call.id));
  }

  lemma SupersedeKeepsInv(h: History, call: Call)
    requires Inv(h) && call.CallSupersede? && Succeeds(h, call)
    ensures KeepsAll(h, Step(h, call))
  {
    CloseKeepsInv(h, Step(h, call), IndexOf(h.store.records, call.id).value, Superseded, call.id,
                  ApprovalSuperseded(call.id, call.supersededBy));
  }

  lemma AdapterRejectionKeepsInv(h: History, adapter: string, reason: string)
    requires Inv(h)
    ensures KeepsAll(h, h.(store := RecordAdapterRejection(h.store, adapter, reason)))
  {
    hide Replay, Project;
    var e := NextEvent(h.store.ledger, "approval", "approval", ApprovalAdapterRejected(adapter, reason));
    ReplayAppend(h.store.ledger, e);
    ProjectAppend(h.store.ledger, e, RequestedBy);
    ProjectAppend(h.store.ledger, e, ClosedBy);
    ProjectAppend(h.store.ledger, e, ApprovedBy);
    RequestedLonger(h.store.ledger, e);
  }

  lemma StepKeepsInv(h: History, call: Call)
    requires Inv(h)
    ensures Inv(Step(h, call))
    ensures Rebuilds(Step(h, call).store) <==> Rebuilds(h.store) && Fresh(call)
    ensures ClosedByEvents(Step(h, call).store) <==> ClosedByEvents(h.store) && (Fresh(call) || Repeats(h.store, call))
  {
    hide Inv, Rebuilds, ClosedByEvents;
    FailureChangesNothing(h, call);
    if Succeeds(h, call) {
      match call
      case CallRequest(record) => RequestKeepsInv(h, record);
      case CallApprove(_, _, _, _, _, _) => ApproveKeepsInv(h, call);
      case CallReject(_, _, _) => RejectKeepsInv(h, call);
      case CallExpire(_, _) => ExpireKeepsInv(h, call);
      case CallSupersede(_, _) => SupersedeKeepsInv(h, call);
      case CallAdapterRejection(adapter, reason) => AdapterRejectionKeepsInv(h, adapter, reason);
    }
  }

  /** A request for an id that the store already knows. */
  predicate Repeats(s: StoreState, call: Call) {
    call.CallRequest? && Show(s, call.record.id).Some?
  }

  lemma {:induction false} RunKeepsInv(calls: seq<Call>)
    ensures Inv(After(NO_HISTORY, calls))
  {
    if calls != [] {
      RunKeepsInv(calls[..|calls| - 1]);
      StepKeepsInv(After(NO_HISTORY, calls[..|calls| - 1]), calls[|calls| - 1]);
    }
  }

  // ----- What it means -----

  /**
   After a run the ledger rebuilds each approval's id, proposal, action and state exactly when every record was
   requested pending, as `NewApproval` makes it: no later call makes up for one that was not.
   */
  lemma {:induction false} LedgerRebuildsStore(calls: seq<Call>)
    ensures var s := After(NO_HISTORY, calls).store;
            Replay(s.ledger) == Map(s.records, EntryOf) <==> forall call :: call in calls ==> Fresh(call)
  {
    hide Step, Inv, Fresh, Replay, Project, Show, ClosedByEvents;
    if calls == [] {
      NothingToRebuild();
    } else {
      var rest, last := calls[..|calls| - 1], calls[|calls| - 1];
      LedgerRebuildsStore(rest);
      RunKeepsInv(rest);
      StepKeepsInv(After(NO_HISTORY, rest), last);
      assert calls == rest + [last];
    }
  }

  /** One request on a store that the ledger rebuilds keeps it so exactly when the record arrives pending. */
  lemma RequestReplayExact(s: StoreState, record: ApprovalRecord)
    requires Replay(s.ledger) == Map(s.records, EntryOf)
    ensures Replay(Request(s, record).ledger) == Map(Request(s, record).records, EntryOf) <==> record.state == Pending
  {
    var kind := ApprovalRequested(record.id, record.proposalId, record.actionId);
    ReplayAppend(s.ledger, NextEvent(s.ledger, "approval", "approval", kind));
    var rebuilt, kept := Replay(Request(s, record).ledger), Map(Request(s, record).records, EntryOf);
    assert rebuilt[|s.records|].state == Pending && kept[|s.records|].state == record.state;
  }

  /** Any record that arrives closed is lost at once: the ledger takes it for pending, and nothing ever closed it. */
  lemma ClosedRequestIsLost(record: ApprovalRecord)
    requires record.state != Pending
    ensures var s := After(NO_HISTORY, [CallRequest(record)]).store;
            && Replay(s.ledger) == [EntryOf(record).(state := Pending)] && Show(s, record.id) == Some(record)
            && record.id !in Project(s.ledger, ClosedBy)
  {
    var s := EMPTY_STORE;
    RequestFacts(s, record);
    assert After(NO_HISTORY, [CallRequest(record)]).store == Request(s, record) by {
      assert [CallRequest(record)][..0] == [];
    }
    hide Request;
  }

  lemma NothingToRebuild()
    ensures Rebuilds(After(NO_HISTORY, []).store)
  {}

  /** Even a ledger that does not rebuild the states rebuilds everything else, and errs only towards pending. */
  lemma LedgerTellsOfStore(calls: seq<Call>)
    ensures var s := After(NO_HISTORY, calls).store;
            && |Replay(s.ledger)| == |s.records|
            && forall k :: 0 <= k < |s.records| ==> TellsOf(Replay(s.ledger)[k], s.records[k])
  {
    RunKeepsInv(calls);
    hide Replay, After;
  }

  /** In every run an approval id is closed at most once, behind its request, and each approval issues one lease. */
  lemma ClosedAtMostOnce(calls: seq<Call>)
    ensures var h := After(NO_HISTORY, calls);
            && Distinct(Project(h.store.ledger, ClosedBy))
            && ClosedAfterRequest(h.store.ledger)
            && (forall id :: id in Project(h.store.ledger, ClosedBy)
                             ==> Show(h.store, id).Some? && Show(h.store, id).value.state != Pending)
            && Map(h.issued, (c: CapabilityLeaseClaims) => c.approvalId) == Project(h.store.ledger, ApprovedBy)
            && Distinct(Map(h.issued, (c: CapabilityLeaseClaims) => c.leaseId))
  {
    RunKeepsInv(calls);
    hide After, Replay, Project, ClosedAfterRequest;
    var h := After(NO_HISTORY, calls);
    var ids := Map(h.issued, (c: CapabilityLeaseClaims) => c.approvalId);
    forall i, j | 0 <= i < j < |h.issued|
      ensures h.issued[i].leaseId != h.issued[j].leaseId
    {
      assert ids[i] != ids[j];
      assert h.issued[i].leaseId[|"lease-"|..] == ids[i];
      assert h.issued[j].leaseId[|"lease-"|..] == ids[j];
    }
  }

  /** The first request for each id brings a pending record. */
  ghost predicate FirstRequestsFresh(calls: seq<Call>) {
    forall i :: 0 <= i < |calls| && !Fresh(calls[i]) ==> RequestedAmong(calls[..i], calls[i].record.id)
  }

  predicate RequestedAmong(calls: seq<Call>, id: string) {
    exists j :: 0 <= j < |calls| && calls[j].CallRequest? && calls[j].record.id == id
  }

  /** The closed ids are exactly those no longer pending, if and only if the first request for each id was pending. */
  lemma {:induction false} ClosedIdsExact(calls: seq<Call>)
    ensures var s := After(NO_HISTORY, calls).store;
            (forall id :: id in Project(s.ledger, ClosedBy)
                          <==> Show(s, id).Some? && Show(s, id).value.state != Pending)
            <==> FirstRequestsFresh(calls)
  {
    RunKeepsInv(calls);
    ClosedByEventsExact(calls);
    hide After, Project, Show, Accounts, IssuedAgrees;
  }

  lemma {:induction false} ClosedByEventsExact(calls: seq<Call>)
    ensures ClosedByEvents(After(NO_HISTORY, calls).store) <==> FirstRequestsFresh(calls)
  {
    hide Step, Inv, ClosedByEvents, Show, RequestedAmong;
    if calls == [] {
      NothingClosed();
    } else {
      var rest, last := calls[..|calls| - 1], calls[|calls| - 1];
      ClosedByEventsExact(rest);
      RunKeepsInv(rest);
      StepKeepsInv(After(NO_HISTORY, rest), last);
      FirstRequestsStep(rest, last);
      assert calls == rest + [last];
      if last.CallRequest? {
        KnownWasRequested(rest, last.record.id);
      }
    }
  }

  lemma NothingClosed()
    ensures ClosedByEvents(After(NO_HISTORY, []).store)
  {}

  lemma FirstRequestsStep(rest: seq<Call>, last: Call)
    ensures FirstRequestsFresh(rest + [last])
            <==> FirstRequestsFresh(rest) && (Fresh(last) || RequestedAmong(rest, last.record.id))
  {
    hide RequestedAmong, Fresh;
    var calls := rest + [last];
    assert forall i :: 0 <= i < |rest| ==> calls[i] == rest[i] && calls[..i] == rest[..i];
    assert calls[|rest|] == last && calls[..|rest|] == rest;
  }

  /** The store knows exactly the ids that were requested. */
  lemma {:induction false} KnownWasRequested(calls: seq<Call>, id: string)
    ensures Show(After(NO_HISTORY, calls).store, id).Some? <==> RequestedAmong(calls, id)
  {
    hide Step, Show;
    if calls == [] {
      NothingKnown(id);
    } else {
      var rest, last := calls[..|calls| - 1], calls[|calls| - 1];
      KnownWasRequested(rest, id);
      StepKnows(After(NO_HISTORY, rest), last, id);
    }
  }

  lemma NothingKnown(id: string)
    ensures Show(After(NO_HISTORY, []).store, id).None?
  {}

  lemma StepKnows(h: History, call: Call, id: string)
    ensures Show(Step(h, call).store, id).Some?
            <==> Show(h.store, id).Some? || (call.CallRequest? && call.record.id == id)
  {
    if call.CallRequest? {
      hide Show;
      RequestFacts(h.store, call.record);
    } else {
      StepKeepsIds(h, call);
      SameIdsKnown(h.store, Step(h, call).store, id);
    }
  }

  lemma StepKeepsIds(h: History, call: Call)
    requires !call.CallRequest?
    ensures var before, after := h.store.records, Step(h, call).store.records;
            |after| == |before| && forall k :: 0 <= k < |before| ==> after[k].id == before[k].id
  {
    hide Recorded;
  }

  lemma SameIdsKnown(s: StoreState, s': StoreState, id: string)
    requires |s'.records| == |s.records|
    requires forall k :: 0 <= k < |s.records| ==> s'.records[k].id == s.records[k].id
    ensures Show(s', id).Some? <==> Show(s, id).Some?
  {
    assert forall k :: 0 <= k < |s.records| ==> HasId(id)(s'.records[k]) == HasId(id)(s.records[k]);
  }

  lemma StepKeepsWritten(h: History, call: Call)
    requires WrittenBy(h.store.ledger, "approval", "approval")
    ensures WrittenBy(Step(h, call).store.ledger, "approval", "approval")
  {}

  /** In every run the approval ledger is gap-free and names every event differently. */
  lemma {:induction false} LedgerIsSequenced(calls: seq<Call>)
    ensures WrittenBy(After(NO_HISTORY, calls).store.ledger, "approval", "approval")
    ensures var events := After(NO_HISTORY, calls).store.ledger;
            Sequenced(events) && forall i, j :: 0 <= i < j < |events| ==> events[i].id != events[j].id
  {
    if calls != [] {
      LedgerIsSequenced(calls[..|calls| - 1]);
      StepKeepsWritten(After(NO_HISTORY, calls[..|calls| - 1]), calls[|calls| - 1]);
    }
    WrittenByOneSource(After(NO_HISTORY, calls).store.ledger, "approval", "approval");
  }

  /** The success of a call, as its caller sees it. */
  predicate Succeeds(h: History, call: Call) {
    match call
    case CallRequest(_) => true
    case CallApprove(id, expected, actor, now, entry, nonce) =>
      Approve(h.store, id, expected, actor, now, entry, nonce).1.Ok?
    case CallReject(id, actor, now) => Reject(h.store, id, actor, now).1.Pass?
    case CallExpire(id, now) => Expire(h.store, id, now).1.Pass?
    case CallSupersede(id, newer) => Supersede(h.store, id, newer).1.Pass?
    case CallAdapterRejection(_, _) => true
  }

  /** A failed call changes neither records nor ledger. */
  lemma FailureChangesNothing(h: History, call: Call)
    ensures !Succeeds(h, call) ==> Step(h, call) == h
  {}

  /** What an approval is bound to never changes, and a decision is never revised. */
  ghost predicate Continues(before: seq<ApprovalRecord>, after: seq<ApprovalRecord>) {
    && |before| <= |after|
    && forall k :: 0 <= k < |before| ==>
         after[k].(state := before[k].state) == before[k]
         && (before[k].state != Pending ==> after[k] == before[k])
  }

  lemma {:induction false} DecisionsAreFinal(h: History, calls: seq<Call>)
    ensures Continues(h.store.records, After(h, calls).store.records)
  {
    if calls != [] {
      DecisionsAreFinal(h, calls[..|calls| - 1]);
      StepContinues(After(h, calls[..|calls| - 1]), calls[|calls| - 1]);
    }
  }

  lemma StepContinues(h: History, call: Call)
    ensures Continues(h.store.records, Step(h, call).store.records)
  {
    hide Recorded;
  }

  // ----- Ways out of pending -----

  ghost predicate Open(s: StoreState, id: string) {
    Show(s, id).Some? && Show(s, id).value.state == Pending
  }

  /** What the first record with the id becomes, while all others stay as they are. */
  ghost predicate ClosesOnly(s: StoreState, s': StoreState, id: string, state: ApprovalState) {
    && Show(s, id).Some? && Show(s', id) == Some(Show(s, id).value.(state := state))
    && |s'.records| == |s.records|
    && forall k :: 0 <= k < |s.records| && IndexOf(s.records, id) != Some(k) ==> s'.records[k] == s.records[k]
  }

  /**
   At any time a pending approval can be superseded, and exactly one of rejecting and expiring is possible, the
   former before its expiry and the latter from then on; nothing else can be closed.
   */
  lemma ClosingExact(s: StoreState, id: string, actor: string, newer: string, now: nat)
    ensures Reject(s, id, actor, now).1.Pass? <==> Open(s, id) && now < Show(s, id).value.expiresAt
    ensures Expire(s, id, now).1.Pass? <==> Open(s, id) && Show(s, id).value.expiresAt <= now
    ensures Supersede(s, id, newer).1.Pass? <==> Open(s, id)
    ensures Reject(s, id, actor, now).1.Pass? ==> ClosesOnly(s, Reject(s, id, actor, now).0, id, ApprovalState.Rejected)
    ensures Expire(s, id, now).1.Pass? ==> ClosesOnly(s, Expire(s, id, now).0, id, Expired)
    ensures Supersede(s, id, newer).1.Pass? ==> ClosesOnly(s, Supersede(s, id, newer).0, id, Superseded)
  {
    hide Recorded, ClosesOnly;
    if IndexOf(s.records, id).Some? {
      CloseClosesOnly(s, id, ApprovalState.Rejected, ApprovalDecision(id, actor, OutcomeRejected));
      CloseClosesOnly(s, id, Expired, ApprovalExpired(id));
      CloseClosesOnly(s, id, Superseded, ApprovalSuperseded(id, newer));
    }
  }

  lemma CloseClosesOnly(s: StoreState, id: string, state: ApprovalState, kind: AuditEventKind)
    requires IndexOf(s.records, id).Some?
    ensures ClosesOnly(s, Close(s, IndexOf(s.records, id).value, state, kind), id, state)
  {
    hide Recorded;
    var index := IndexOf(s.records, id).value;
    var records := Close(s, index, state, kind).records;
    assert forall k :: 0 <= k < |records| ==> records[k].id == s.records[k].id;
    PositionUnique(records, HasId(id), index);
  }

  /** Once an approval has been closed, no call on its id succeeds any more, whatever happens in between. */
  lemma ClosedForGood(h: History, calls: seq<Call>, id: string, attempt: Call)
    requires Show(h.store, id).Some? && !Open(h.store, id)
    requires (attempt.CallApprove? || attempt.CallReject? || attempt.CallExpire? || attempt.CallSupersede?)
             && attempt.id == id
    ensures !Succeeds(After(h, calls), attempt)
  {
    hide Recorded, After;
    var index := IndexOf(h.store.records, id).value;
    DecisionsAreFinal(h, calls);
    var records := After(h, calls).store.records;
    assert forall k :: 0 <= k <= index ==> records[k].id == h.store.records[k].id;
    PositionUnique(records, HasId(id), index);
  }
}
