/** The durable ledger: an append-only stream of audit documents that must read back as the ledger it stores. */
module Durable {
  import opened Wrappers
  import opened Seqs
  import opened Domain
  import opened Ledger
  import opened Receipt
  import opened ReceiptAccumulator
  import opened ReceiptProofs

  /** One document of the ledger file; decoding an encoded event gives the event back. */
  datatype Document = Encoded(event: AuditEvent) | Undecodable

  /** The ledger file, if it exists. */
  type AuditFile = Option<seq<Document>>

  datatype DurableError =
    | MissingLedger
    | CorruptLedger
    | DurableAppend(cause: AuditAppendError)
    | ReceiptFailure(receiptError: ReceiptError)

  function LoadDocuments(documents: seq<Document>): Result<seq<AuditEvent>, DurableError> {
    if documents == [] then Ok([])
    else
      match LoadDocuments(documents[..|documents| - 1])
      case Err(error) => Err(error)
      case Ok(events) =>
        match documents[|documents| - 1]
        case Undecodable => Err(CorruptLedger)
        case Encoded(event) =>
          if event.sequence != |events| + 1 then
            Err(DurableAppend(NonMonotonicSequence(|events| + 1, event.sequence)))
          else Ok(events + [event])
  }

  function Load(file: AuditFile): Result<seq<AuditEvent>, DurableError> {
    match file
    case None => Err(MissingLedger)
    case Some(documents) => LoadDocuments(documents)
  }

  function Append(file: AuditFile, event: AuditEvent): (AuditFile, Outcome<DurableError>) {
    match Load(file)
    case Err(error) => (file, Fail(error))
    case Ok(events) =>
      if event.sequence != |events| + 1 then
        (file, Fail(DurableAppend(NonMonotonicSequence(|events| + 1, event.sequence))))
      else (Some(file.value + [Encoded(event)]), Pass)
  }

  /** Appends in order and stops at the first failure. */
  function AppendAll(file: AuditFile, events: seq<AuditEvent>): (AuditFile, Outcome<DurableError>) {
    if events == [] then (file, Pass)
    else
      var (before, r) := AppendAll(file, events[..|events| - 1]);
      if r.Fail? then (before, r) else Append(before, events[|events| - 1])
  }

  function Render(file: AuditFile, runId: string): Result<OperatorReceipt, DurableError> {
    match Load(file)
    case Err(error) => Err(error)
    case Ok(events) =>
      match ReceiptFor(runId, events)
      case Ok(receipt) => Ok(receipt)
      case Err(error) => Err(ReceiptFailure(error))
  }

  // ----- What loads, and what comes back -----

  predicate Stores(documents: seq<Document>, events: seq<AuditEvent>) {
    |documents| == |events| && forall k :: 0 <= k < |documents| ==> documents[k] == Encoded(events[k])
  }

  predicate InSequence(documents: seq<Document>) {
    forall k :: 0 <= k < |documents| ==> documents[k].Encoded? && documents[k].event.sequence == k + 1
  }

  /** A stream loads exactly when its k-th document carries sequence number k, and then yields the stored events. */
  lemma {:induction false} LoadExact(documents: seq<Document>)
    ensures LoadDocuments(documents).Ok? <==> InSequence(documents)
    ensures LoadDocuments(documents).Ok? ==>
              Stores(documents, LoadDocuments(documents).value) && Sequenced(LoadDocuments(documents).value)
  {
    if documents != [] {
      var rest := documents[..|documents| - 1];
      LoadExact(rest);
      assert InSequence(documents) ==> InSequence(rest);
    }
  }

  lemma LoadAppended(documents: seq<Document>, d: Document)
    ensures LoadDocuments(documents + [d]) ==
            match LoadDocuments(documents)
            case Err(error) => Err(error)
            case Ok(events) =>
              match d
              case Undecodable => Err(CorruptLedger)
              case Encoded(event) =>
                if event.sequence != |events| + 1 then
                  Err(DurableAppend(NonMonotonicSequence(|events| + 1, event.sequence)))
                else Ok(events + [event])
  {
    assert (documents + [d])[..|documents + [d]| - 1] == documents;
  }

  /** The first document that cannot be accepted decides the error, whatever follows it. */
  lemma {:induction false} FirstBadDocumentDecides(documents: seq<Document>, more: seq<Document>)
    requires LoadDocuments(documents).Err?
    ensures LoadDocuments(documents + more) == LoadDocuments(documents)
  {
    if more == [] {
      assert documents + more == documents;
    } else {
      var rest := more[..|more| - 1];
      FirstBadDocumentDecides(documents, rest);
      LoadAppended(documents + rest, more[|more| - 1]);
      assert documents + more == (documents + rest) + [more[|more| - 1]];
    }
  }

  /** A missing file does not load, and the first unacceptable document is answered for what is wrong with it. */
  lemma LoadRefusals(documents: seq<Document>, k: nat)
    requires k < |documents| && InSequence(documents[..k])
    ensures Load(None) == Err(MissingLedger)
    ensures documents[k].Undecodable? ==> Load(Some(documents)) == Err(CorruptLedger)
    ensures documents[k].Encoded? && documents[k].event.sequence != k + 1 ==>
              Load(Some(documents)) == Err(DurableAppend(NonMonotonicSequence(k + 1, documents[k].event.sequence)))
  {
    LoadExact(documents[..k]);
    LoadAppended(documents[..k], documents[k]);
    if documents[k].Undecodable? || documents[k].event.sequence != k + 1 {
      FirstBadDocumentDecides(documents[..k] + [documents[k]], documents[k + 1..]);
      assert documents[..k] + [documents[k]] + documents[k + 1..] == documents;
    }
  }

  /** An append extends the stored documents by one, or else says why the file does not load or the number is wrong. */
  lemma AppendAnswers(file: AuditFile, event: AuditEvent)
    ensures match Load(file)
            case Err(error) => Append(file, event) == (file, Fail(error))
            case Ok(events) =>
              if event.sequence == |events| + 1 then
                file.Some? && Append(file, event) == (Some(file.value + [Encoded(event)]), Pass)
              else
                Append(file, event) == (file, Fail(DurableAppend(NonMonotonicSequence(|events| + 1, event.sequence))))
  {}

  /** Persisting to a store that holds n events is refused at the first event, which carries number 1. */
  lemma {:induction false} PersistRefusals(stored: seq<AuditEvent>, events: seq<AuditEvent>)
    requires Sequenced(stored) && stored != [] && Sequenced(events) && events != []
    ensures AppendAll(None, events).1 == Fail(MissingLedger)
    ensures forall file :: Load(file) == Ok(stored) ==>
              AppendAll(file, events).1 == Fail(DurableAppend(NonMonotonicSequence(|stored| + 1, 1)))
  {
    var rest, last := events[..|events| - 1], events[|events| - 1];
    if rest != [] {
      PersistRefusals(stored, rest);
    } else {
      assert last.sequence == 1;
    }
  }

  /** What is rendered is the receipt of the loaded events, or why they do not load or make no receipt. */
  lemma RenderAnswers(file: AuditFile, runId: string)
    ensures match Load(file)
            case Err(error) => Render(file, runId) == Err(error)
            case Ok(events) =>
              if ReceiptFor(runId, events).Ok? then Render(file, runId) == Ok(ReceiptFor(runId, events).value)
              else Render(file, runId) == Err(ReceiptFailure(ReceiptFor(runId, events).error))
  {
    hide ReceiptFor;
  }

  /** A successful append adds exactly its event to what loads; a failed one changes nothing. */
  lemma AppendThenLoad(file: AuditFile, event: AuditEvent)
    ensures var (file', r) := Append(file, event);
            && (r.Pass? <==> Load(file).Ok? && event.sequence == |Load(file).value| + 1)
            && (r.Pass? ==> Load(file') == Ok(Load(file).value + [event]))
            && (r.Fail? ==> file' == file)
  {
    if file.Some? {
      LoadAppended(file.value, Encoded(event));
    }
  }

  /** Persisting to an empty store succeeds and reads back as the ledger. */
  lemma {:induction false} PersistRoundTrip(events: seq<AuditEvent>)
    requires Sequenced(events)
    ensures AppendAll(Some([]), events).1.Pass?
    ensures Load(AppendAll(Some([]), events).0) == Ok(events)
  {
    if events != [] {
      var rest, last := events[..|events| - 1], events[|events| - 1];
      PersistRoundTrip(rest);
      AppendThenLoad(AppendAll(Some([]), rest).0, last);
      assert events == rest + [last];
    }
  }

  lemma {:induction false} PersistFails(file: AuditFile, events: seq<AuditEvent>)
    requires Sequenced(events) && events != [] && file != Some([])
    ensures AppendAll(file, events).0 == file && AppendAll(file, events).1.Fail?
  {
    var rest := events[..|events| - 1];
    if rest == [] {
      AppendThenLoad(file, events[0]);
      if file.Some? {
        LoadExact(file.value);
      }
    } else {
      PersistFails(file, rest);
    }
  }

  /** Persisting a ledger is all or nothing: complete on an empty store, without effect on any other. */
  lemma PersistAllOrNothing(file: AuditFile, events: seq<AuditEvent>)
    requires Sequenced(events)
    ensures var (file', r) := AppendAll(file, events);
            && (r.Pass? <==> file == Some([]) || events == [])
            && (r.Pass? && events != [] ==> Load(file') == Ok(events))
            && (r.Fail? || events == [] ==> file' == file)
  {
    if file == Some([]) {
      PersistRoundTrip(events);
    } else if events != [] {
      PersistFails(file, events);
    }
  }

  /** After a restart a run's receipt is the one from memory, even with the receipt's own event appended. */
  lemma ReceiptSurvivesRestart(runId: string, events: seq<AuditEvent>, generated: AuditEvent)
    requires Sequenced(events + [generated]) && generated.kind.CognitiveReceiptGenerated?
    ensures var inMemory := match ReceiptFor(runId, events)
                            case Ok(receipt) => Ok(receipt)
                            case Err(error) => Err(ReceiptFailure(error));
            && Render(AppendAll(Some([]), events).0, runId) == inMemory
            && Render(AppendAll(Some([]), events + [generated]).0, runId) == inMemory
  {
    assert forall k :: 0 <= k < |events| ==> (events + [generated])[k] == events[k];
    PersistRoundTrip(events);
    PersistRoundTrip(events + [generated]);
    ReceiptEventIsNeutral(runId, events, generated);
  }

  /** A local state directory, of which only the ledger file matters here. */
  class LocalServerState {
    var file: AuditFile

    /** Creates the ledger file unless it is there already. */
    constructor Init(existing: AuditFile)
      ensures file == if existing.None? then Some([]) else existing
    {
      file := if existing.None? then Some([]) else existing;
    }

    constructor Open(existing: AuditFile)
      ensures file == existing
    {
      file := existing;
    }

    method AppendEvent(event: AuditEvent) returns (r: Outcome<DurableError>)
      modifies this
      ensures (file, r) == Append(old(file), event)
    {
      var loaded := LoadLedger();
      if loaded.Err? {
        return Fail(loaded.error);
      }
      var expected := |loaded.value| + 1;
      if event.sequence != expected {
        return Fail(DurableAppend(NonMonotonicSequence(expected, event.sequence)));
      }
      file := Some(file.value + [Encoded(event)]);
      return Pass;
    }

    method AppendLedger(events: seq<AuditEvent>) returns (r: Outcome<DurableError>)
      modifies this
      ensures (file, r) == AppendAll(old(file), events)
    {
      for n := 0 to |events|
        invariant (file, Pass) == AppendAll(old(file), events[..n])
      {
        assert events[..n + 1][..n] == events[..n];
        var appended := AppendEvent(events[n]);
        if appended.Fail? {
          AppendAllStops(old(file), events, n + 1);
          return appended;
        }
      }
      assert events[..|events|] == events;
      return Pass;
    }

    method LoadLedger() returns (r: Result<seq<AuditEvent>, DurableError>)
      ensures r == Load(file)
    {
      if file.None? {
        return Err(MissingLedger);
      }
      var documents := file.value;
      var ledger := new AuditLedger();
      for n := 0 to |documents|
        invariant ledger.Valid() && fresh(ledger)
        invariant LoadDocuments(documents[..n]) == Ok(ledger.events)
      {
        assert documents == documents[..n + 1] + documents[n + 1..];
        assert documents[..n + 1] == documents[..n] + [documents[n]];
        LoadAppended(documents[..n], documents[n]);
        if documents[n].Undecodable? {
          FirstBadDocumentDecides(documents[..n + 1], documents[n + 1..]);
          return Err(CorruptLedger);
        }
        var appended := ledger.Append(documents[n].event);
        if appended.Fail? {
          FirstBadDocumentDecides(documents[..n + 1], documents[n + 1..]);
          return Err(DurableAppend(appended.error));
        }
      }
      assert documents[..|documents|] == documents;
      return Ok(ledger.events);
    }

    method RenderReceipt(runId: string) returns (r: Result<OperatorReceipt, DurableError>)
      ensures r == Render(file, runId)
    {
      var loaded := LoadLedger();
      if loaded.Err? {
        return Err(loaded.error);
      }
      var receipt := GenerateOperatorReceipt(runId, loaded.value);
      return if receipt.Ok? then Ok(receipt.value) else Err(ReceiptFailure(receipt.error));
    }
  }

  lemma {:induction false} AppendAllStops(file: AuditFile, events: seq<AuditEvent>, n: nat)
    requires n <= |events| && AppendAll(file, events[..n]).1.Fail?
    ensures AppendAll(file, events) == AppendAll(file, events[..n])
    decreases |events| - n
  {
    if n == |events| {
      assert events[..n] == events;
    } else {
      assert events[..n + 1][..n] == events[..n];
      AppendAllStops(file, events, n + 1);
    }
  }
}
