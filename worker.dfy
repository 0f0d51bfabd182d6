/** The worker task `generate_messages` (app/worker.py): it appends twenty
    message entries, a `[DONE]` sentinel and an expiry to the Redis stream of
    one chat session, and on an exception appends an error record before
    re-raising. The store is `Streams.StreamStore`; the clock and the two
    environment lookups are fields of `Job`; `json.dumps` is not modelled as
    text: an entry's `data` value keeps the record it encodes. */
module Worker {
  import opened Decimal
  import opened Protocol
  import opened Streams

  const ExpirySeconds: nat := 60
  const DataField := "data"

  /** The dictionary serialised for each message. */
  datatype WorkerMessage = WorkerMessage(
    id: string,
    featureId: string,
    chatId: string,
    message: string,
    timestamp: string,
    containerId: string,
    containerFeatureId: string,
    worker: string)

  /** The dictionary serialised when the run fails. */
  datatype ErrorRecord = ErrorRecord(error: string, featureId: string, chatId: string)

  /** The value of an entry field: JSON text of a message, a literal string,
      or JSON text of an error record. */
  datatype Value = Json(msg: WorkerMessage) | Text(text: string) | ErrorJson(record: ErrorRecord)

  type Entry = Fields<Value>

  /** The task's arguments, with what it reads from its surroundings:
      `HOSTNAME` and `FEATURE_ID` from the environment (already defaulted),
      and the clock reading taken when message `i` is built. */
  datatype Job = Job(
    featureId: string,
    chatId: string,
    containerId: string,
    containerFeatureId: string,
    now: nat -> string)

  /** What an awaited call can raise: an ordinary exception with its text,
      or a cancellation, which Python does not class as an `Exception`. */
  datatype Exc = Error(desc: string) | Cancelled

  /** The awaited calls inside the `try`, in program order. */
  datatype Step =
    | Append(k: nat)   // the xadd of message k
    | Pause(k: nat)    // the sleep after message k
    | AppendDone       // the xadd of the sentinel
    | SetExpiry        // the expire call

  /** Which call, if any, raises in this run. */
  datatype Fault = NoFault | FaultAt(step: Step, exc: Exc)

  /** How the task ends: it returns a text, or an exception leaves it. */
  datatype Outcome = Returned(value: string) | Propagated(exc: Exc)

  // ---------------------------------------------------------------------
  // What one run writes

  /** The session's stream key: the prefix `stream:`, the feature id, a
      colon, then the chat id. */
  function StreamKey(featureId: string, chatId: string): (key: string)
    ensures |key| == 8 + |featureId| + |chatId|
    ensures key[..7] == "stream:" && key[7..7 + |featureId|] == featureId
    ensures key[7 + |featureId|] == ':' && key[8 + |featureId|..] == chatId
  {
    var prefix := "stream:";
    assert |prefix| == 7;
    prefix + featureId + ":" + chatId
  }

  /** The text of message i: `Message `, the decimal digits of i, then
      ` from feature <feature>, chat <chat>`. */
  function MessageText(i: nat, featureId: string, chatId: string): string {
    "Message " + NatToString(i) + " from feature " + featureId + ", chat " + chatId
  }

  /** The text of message i is `Message `, the decimal digits of i (reading
      back as i), then the feature and chat ids. */
  lemma MessageTextLayout(i: nat, featureId: string, chatId: string)
    ensures var text := MessageText(i, featureId, chatId);
            |text| >= 8 + |NatToString(i)| &&
            text[..8] == "Message " &&
            IsDigits(text[8..8 + |NatToString(i)|]) && DigitsValue(text[8..8 + |NatToString(i)|]) == i &&
            text[8 + |NatToString(i)|..] == " from feature " + featureId + ", chat " + chatId
  {
    var head, digits, tail := "Message ", NatToString(i), " from feature " + featureId + ", chat " + chatId;
    assert MessageText(i, featureId, chatId) == head + digits + tail;
    assert |head| == 8;
    ConcatSlices(head, digits, tail);
    NatToStringRoundTrip(i);
  }

  /** The three parts of a concatenation are its slices at their lengths. */
  lemma ConcatSlices(head: string, mid: string, tail: string)
    ensures (head + mid + tail)[..|head|] == head
    ensures (head + mid + tail)[|head|..|head| + |mid|] == mid
    ensures (head + mid + tail)[|head| + |mid|..] == tail
  {
  }

  /** The value a clean run returns; the count it reports is the number of
      messages the run appends. */
  function SuccessText(featureId: string, chatId: string): (text: string)
    ensures text == "Generated " + NatToString(MessageCount) + " messages for " + featureId + ":" + chatId
  {
    assert NatToString(MessageCount) == "20";
    "Generated 20 messages for " + featureId + ":" + chatId
  }

  /** Message i of a run: its id is the decimal text of i, and it carries the
      session, the clock reading taken for it, the container's identity and
      the worker tag `arq`. */
  function MessageAt(job: Job, i: nat): (m: WorkerMessage)
    ensures m.id == NatToString(i) && IsDigits(m.id) && DigitsValue(m.id) == i
    ensures m.featureId == job.featureId && m.chatId == job.chatId
    ensures m.message == MessageText(i, job.featureId, job.chatId) && m.timestamp == job.now(i)
    ensures m.containerId == job.containerId && m.containerFeatureId == job.containerFeatureId
    ensures m.worker == "arq"
  {
    NatToStringRoundTrip(i);
    WorkerMessage(NatToString(i), job.featureId, job.chatId, MessageText(i, job.featureId, job.chatId),
                  job.now(i), job.containerId, job.containerFeatureId, "arq")
  }

  function MessageEntry(job: Job, i: nat): Entry {
    map[DataField := Json(MessageAt(job, i))]
  }

  const DoneEntry: Entry := map[DataField := Text(DoneMarker)]

  /** The record the handler appends: a single `data` field holding the
      exception's text and the session's two ids; it is a terminal entry. */
  function ErrorEntry(job: Job, desc: string): (e: Entry)
    ensures e.Keys == {DataField} && IsTerminal(e) && e != DoneEntry
    ensures e[DataField] == ErrorJson(ErrorRecord(desc, job.featureId, job.chatId))
  {
    map[DataField := ErrorJson(ErrorRecord(desc, job.featureId, job.chatId))]
  }

  /** The entries of messages 0 .. n-1, in order. */
  function Messages(job: Job, n: nat): seq<Entry> {
    seq(n, i requires 0 <= i < n => MessageEntry(job, i))
  }

  /** Whether the faulty call is reached at all: an append or a pause with an
      index the loop never gets to does not raise. */
  predicate Fires(fault: Fault) {
    match fault
    case NoFault => false
    case FaultAt(step, _) =>
      match step
      case Append(k) => k < MessageCount
      case Pause(k) => k < MessageCount
      case AppendDone => true
      case SetExpiry => true
  }

  /** The expiry is set exactly when no call raises. */
  predicate SetsExpiry(fault: Fault) {
    !Fires(fault)
  }

  /** What has been appended when `step` raises. */
  function AppendedBefore(job: Job, step: Step): seq<Entry> {
    match step
    case Append(k) => Messages(job, k)
    case Pause(k) => Messages(job, k + 1)
    case AppendDone => Messages(job, MessageCount)
    case SetExpiry => Messages(job, MessageCount) + [DoneEntry]
  }

  /** Everything the run appends to its stream, in order: the `except
      Exception` handler adds an error record, a cancellation passes it by. */
  function RunAppends(job: Job, fault: Fault): (r: seq<Entry>)
    ensures |r| <= MessageCount + 2
    ensures DoneEntry in r <==> !Fires(fault) || fault.step == SetExpiry
  {
    if !Fires(fault) then
      Messages(job, MessageCount) + [DoneEntry]
    else
      AppendedBeforeHasSentinel(job, fault.step);
      AppendedBefore(job, fault.step) + ErrorTail(job, fault.exc)
  }

  /** What the `except Exception` handler appends for `exc`. */
  function ErrorTail(job: Job, exc: Exc): (r: seq<Entry>)
    ensures DoneEntry !in r
  {
    if exc.Error? then [ErrorEntry(job, exc.desc)] else []
  }

  /** Of the failing calls, only `expire` comes after the sentinel. */
  lemma AppendedBeforeHasSentinel(job: Job, step: Step)
    ensures DoneEntry in AppendedBefore(job, step) <==> step == SetExpiry
  {
    match step
    case Append(k) => MessagesHaveNoSentinel(job, k);
    case Pause(k) => MessagesHaveNoSentinel(job, k + 1);
    case AppendDone => MessagesHaveNoSentinel(job, MessageCount);
    case SetExpiry =>
  }

  /** No message entry is the sentinel. */
  lemma MessagesHaveNoSentinel(job: Job, n: nat)
    ensures DoneEntry !in Messages(job, n)
  {
    forall j | 0 <= j < n
      ensures Messages(job, n)[j] != DoneEntry
    {
      assert Messages(job, n)[j][DataField] != DoneEntry[DataField];
    }
  }

  /** The task returns the success text exactly when it sets the expiry;
      otherwise the exception raised by the faulty call leaves it. */
  function RunOutcome(job: Job, fault: Fault): (r: Outcome)
    ensures r.Returned? <==> SetsExpiry(fault)
    ensures r.Propagated? ==> r.exc == fault.exc
  {
    if Fires(fault) then Propagated(fault.exc) else Returned(SuccessText(job.featureId, job.chatId))
  }

  // ---------------------------------------------------------------------
  // The task

  /** Whether the fault lies in the message loop: an append or a pause the
      loop reaches. */
  predicate FiresInLoop(fault: Fault) {
    Fires(fault) && (fault.step.Append? || fault.step.Pause?)
  }

  /** The `for` loop of `generate_messages`: appends messages to the stream
      at `key` until one of its calls raises. On `failed` the exception is
      `raised` and the stream holds what was appended before the call. */
  method AppendMessages(store: StreamStore<Value>, key: string, job: Job, fault: Fault)
    returns (failed: bool, raised: Exc)
    modifies store
    ensures failed == FiresInLoop(fault)
    ensures failed ==> raised == fault.exc
    ensures store.streams == AppendAll(old(store.streams), key,
                                       if failed then AppendedBefore(job, fault.step) else Messages(job, MessageCount))
    ensures store.ttl == old(store.ttl)
  {
    ghost var start := store.streams;
    failed, raised := false, Cancelled;
    var i := 0;
    while i < MessageCount
      invariant 0 <= i <= MessageCount
      invariant store.streams == AppendAll(start, key, Messages(job, i))
      invariant store.ttl == old(store.ttl)
      invariant fault.FaultAt? && (fault.step.Append? || fault.step.Pause?) ==> fault.step.k >= i
    {
      var message := MessageAt(job, i);
      if fault.FaultAt? && fault.step == Append(i) {
        assert AppendedBefore(job, fault.step) == Messages(job, i);
        failed, raised := true, fault.exc;
        return;
      }
      store.XAdd(key, map[DataField := Json(message)]);
      AppendMessageStep(start, key, job, i);
      if fault.FaultAt? && fault.step == Pause(i) {
        assert AppendedBefore(job, fault.step) == Messages(job, i + 1);
        failed, raised := true, fault.exc;
        return;
      }
      i := i + 1;
    }
  }

  /** `generate_messages(ctx, feature_id, chat_id)` against `store`, with the
      call named by `fault` raising. Only the session's stream changes, and
      only by appending `RunAppends`; the expiry is set only on success. */
  method GenerateMessages(store: StreamStore<Value>, job: Job, fault: Fault) returns (outcome: Outcome)
    modifies store
    ensures store.streams == AppendAll(old(store.streams), StreamKey(job.featureId, job.chatId), RunAppends(job, fault))
    ensures store.ttl == if SetsExpiry(fault)
                         then old(store.ttl)[StreamKey(job.featureId, job.chatId) := ExpirySeconds]
                         else old(store.ttl)
    ensures outcome == RunOutcome(job, fault)
  {
    var key := StreamKey(job.featureId, job.chatId);
    ghost var start := store.streams;
    var failed, raised := AppendMessages(store, key, job, fault);
    if !failed {
      if fault.FaultAt? && fault.step == AppendDone {
        failed, raised := true, fault.exc;
      } else {
        store.XAdd(key, map[DataField := Text(DoneMarker)]);
        AppendAllSnoc(start, key, Messages(job, MessageCount), DoneEntry);
        if fault.FaultAt? && fault.step == SetExpiry {
          failed, raised := true, fault.exc;
        } else {
          var applied := store.Expire(key, ExpirySeconds);
          outcome := Returned(SuccessText(job.featureId, job.chatId));
          return;
        }
      }
    }
    assert Fires(fault) && raised == fault.exc;
    assert store.streams == AppendAll(start, key, AppendedBefore(job, fault.step));
    assert RunAppends(job, fault) == AppendedBefore(job, fault.step) + ErrorTail(job, raised);
    // except Exception: a cancellation is not caught, so nothing is appended for it
    if raised.Error? {
      store.XAdd(key, map[DataField := ErrorJson(ErrorRecord(raised.desc, job.featureId, job.chatId))]);
      AppendAllSnoc(start, key, AppendedBefore(job, fault.step), ErrorEntry(job, raised.desc));
    } else {
      assert AppendedBefore(job, fault.step) + [] == AppendedBefore(job, fault.step);
    }
    outcome := Propagated(raised);
  }

  /** One turn of the loop: appending message i after messages 0 .. i-1. */
  lemma AppendMessageStep(start: map<string, seq<Entry>>, key: string, job: Job, i: nat)
    ensures AppendAll(start, key, Messages(job, i + 1))
            == AppendAll(start, key, Messages(job, i))[key := LogOf(AppendAll(start, key, Messages(job, i)), key) + [MessageEntry(job, i)]]
  {
    assert Messages(job, i + 1) == Messages(job, i) + [MessageEntry(job, i)];
    AppendAllSnoc(start, key, Messages(job, i), MessageEntry(job, i));
  }

  // ---------------------------------------------------------------------
  // Terminal entries

  /** The sentinel and the error record end a session's output. */
  predicate IsTerminal(e: Entry) {
    DataField in e && (e[DataField] == Text(DoneMarker) || e[DataField].ErrorJson?)
  }

  function TerminalCount(s: seq<Entry>): nat {
    if s == [] then 0
    else TerminalCount(s[..|s| - 1]) + (if IsTerminal(s[|s| - 1]) then 1 else 0)
  }

  lemma {:induction false} TerminalCountConcat(a: seq<Entry>, b: seq<Entry>)
    ensures TerminalCount(a + b) == TerminalCount(a) + TerminalCount(b)
    decreases |b|
  {
    if b == [] {
      assert a + b == a;
    } else {
      var b' := b[..|b| - 1];
      assert (a + b)[..|a + b| - 1] == a + b';
      TerminalCountConcat(a, b');
    }
  }

  lemma {:induction false} MessagesHaveNoTerminal(job: Job, n: nat)
    ensures TerminalCount(Messages(job, n)) == 0
  {
    if n > 0 {
      assert Messages(job, n)[..n - 1] == Messages(job, n - 1);
      MessagesHaveNoTerminal(job, n - 1);
    }
  }

  /** Before the sentinel is appended, the run has appended messages only. */
  lemma AppendedBeforeHasNoTerminal(job: Job, step: Step)
    requires step != SetExpiry
    ensures TerminalCount(AppendedBefore(job, step)) == 0
  {
    match step
    case Append(k) => MessagesHaveNoTerminal(job, k);
    case Pause(k) => MessagesHaveNoTerminal(job, k + 1);
    case AppendDone => MessagesHaveNoTerminal(job, MessageCount);
  }

  // ---------------------------------------------------------------------
  // Properties of a run

  /** Entry `e` is message `i` of `job`: a single `data` field holding a
      message whose id reads back as `i` and which carries the session. */
  predicate CarriesMessage(e: Entry, job: Job, i: nat) {
    e.Keys == {DataField} && e[DataField].Json? &&
    var m := e[DataField].msg;
    m.id == NatToString(i) && IsDigits(m.id) && DigitsValue(m.id) == i &&
    m.featureId == job.featureId && m.chatId == job.chatId &&
    m.message == MessageText(i, job.featureId, job.chatId) &&
    m.timestamp == job.now(i) && m.worker == "arq" &&
    m.containerId == job.containerId && m.containerFeatureId == job.containerFeatureId
  }

  /** A clean run appends 21 entries: messages with ids 0 .. 19 in order,
      then the sentinel; it returns the summary text. */
  lemma SuccessfulRunLog(job: Job)
    ensures |RunAppends(job, NoFault)| == MessageCount + 1
    ensures forall i :: 0 <= i < MessageCount ==> CarriesMessage(RunAppends(job, NoFault)[i], job, i)
    ensures RunAppends(job, NoFault)[MessageCount] == DoneEntry
    ensures DoneEntry[DataField] == Text("[DONE]")
    ensures RunOutcome(job, NoFault) == Returned(SuccessText(job.featureId, job.chatId))
  {
    forall i | 0 <= i < MessageCount
      ensures CarriesMessage(RunAppends(job, NoFault)[i], job, i)
    {
      NatToStringRoundTrip(i);
    }
  }

  /** Every entry a run appends has exactly one field, `data`. */
  lemma EveryEntryHasOnlyDataField(job: Job, fault: Fault)
    ensures forall e :: e in RunAppends(job, fault) ==> e.Keys == {DataField}
  {
    var n: nat, rest := MessageCount, [DoneEntry];
    if Fires(fault) {
      match fault.step {
        case Append(k) => n, rest := k, [];
        case Pause(k) => n, rest := k + 1, [];
        case AppendDone => rest := [];
        case SetExpiry =>
      }
      rest := rest + ErrorTail(job, fault.exc);
    }
    assert RunAppends(job, fault) == Messages(job, n) + rest;
    forall e | e in Messages(job, n) + rest
      ensures e.Keys == {DataField}
    {
      if e in Messages(job, n) {
        var j :| 0 <= j < n && Messages(job, n)[j] == e;
      }
    }
  }

  /** When the append of message k raises an ordinary exception, the stream
      gains messages 0 .. k-1 and one error record with the exception's text
      and the session; no sentinel, no expiry, and the exception propagates. */
  lemma FailedAppendLog(job: Job, k: nat, desc: string)
    requires k < MessageCount
    ensures RunAppends(job, FaultAt(Append(k), Error(desc))) == Messages(job, k) + [ErrorEntry(job, desc)]
    ensures DoneEntry !in RunAppends(job, FaultAt(Append(k), Error(desc)))
    ensures ErrorEntry(job, desc)[DataField].record == ErrorRecord(desc, job.featureId, job.chatId)
    ensures !SetsExpiry(FaultAt(Append(k), Error(desc)))
    ensures RunOutcome(job, FaultAt(Append(k), Error(desc))) == Propagated(Error(desc))
  {
    var r := RunAppends(job, FaultAt(Append(k), Error(desc)));
    forall j | 0 <= j < |r|
      ensures r[j] != DoneEntry
    {
      assert r[j][DataField] != DoneEntry[DataField];
    }
  }

  /** A run that ends normally, or whose ordinary exception comes from any
      call before `expire`, appends exactly one terminal entry, and last. */
  lemma OneTerminalEntryLast(job: Job, fault: Fault)
    requires !Fires(fault) || (fault.exc.Error? && fault.step != SetExpiry)
    ensures |RunAppends(job, fault)| > 0
    ensures TerminalCount(RunAppends(job, fault)) == 1
    ensures IsTerminal(RunAppends(job, fault)[|RunAppends(job, fault)| - 1])
  {
    var r := RunAppends(job, fault);
    var last := if !Fires(fault) then DoneEntry else ErrorEntry(job, fault.exc.desc);
    var body := if !Fires(fault) then Messages(job, MessageCount) else AppendedBefore(job, fault.step);
    assert r == body + [last];
    if Fires(fault) {
      AppendedBeforeHasNoTerminal(job, fault.step);
    } else {
      MessagesHaveNoTerminal(job, MessageCount);
    }
    TerminalCountConcat(body, [last]);
    assert [last][..0] == [];
  }

  /** When `expire` raises an ordinary exception the sentinel is already
      appended, so the handler leaves two terminal entries: `[DONE]`, then
      the error record. */
  lemma ExpireFailureLeavesTwoTerminals(job: Job, desc: string)
    ensures RunAppends(job, FaultAt(SetExpiry, Error(desc)))
            == Messages(job, MessageCount) + [DoneEntry, ErrorEntry(job, desc)]
    ensures TerminalCount(RunAppends(job, FaultAt(SetExpiry, Error(desc)))) == 2
    ensures RunOutcome(job, FaultAt(SetExpiry, Error(desc))) == Propagated(Error(desc))
  {
    var two := [DoneEntry, ErrorEntry(job, desc)];
    assert RunAppends(job, FaultAt(SetExpiry, Error(desc))) == Messages(job, MessageCount) + two;
    MessagesHaveNoTerminal(job, MessageCount);
    TerminalCountConcat(Messages(job, MessageCount), two);
    assert two[..1] == [DoneEntry];
    assert two[..1][..0] == [];
  }

  /** A cancellation before the sentinel is appended reaches no handler and
      leaves the stream with no terminal entry at all. */
  lemma CancellationLeavesNoTerminal(job: Job, fault: Fault)
    requires Fires(fault) && fault.exc == Cancelled && fault.step != SetExpiry
    ensures TerminalCount(RunAppends(job, fault)) == 0
    ensures RunOutcome(job, fault) == Propagated(Cancelled)
  {
    assert RunAppends(job, fault) == AppendedBefore(job, fault.step);
    AppendedBeforeHasNoTerminal(job, fault.step);
  }

  /** The expiry is set exactly on the runs that return, and those end with
      the sentinel. */
  lemma ExpiryOnlyOnSuccess(job: Job, fault: Fault)
    ensures SetsExpiry(fault) <==> RunOutcome(job, fault).Returned?
    ensures SetsExpiry(fault) ==>
              RunAppends(job, fault)[|RunAppends(job, fault)| - 1] == DoneEntry &&
              RunOutcome(job, fault).value == SuccessText(job.featureId, job.chatId)
    ensures !SetsExpiry(fault) ==> RunOutcome(job, fault) == Propagated(fault.exc)
  {
  }

  /** A stream that held no terminal entry before the run ends, after a run
      that returns or fails before `expire` with an ordinary exception, with
      exactly one terminal entry, and that entry is its last. */
  lemma SessionLogEndsWithOneTerminal(job: Job, fault: Fault, prior: seq<Entry>)
    requires TerminalCount(prior) == 0
    requires !Fires(fault) || (fault.exc.Error? && fault.step != SetExpiry)
    ensures TerminalCount(prior + RunAppends(job, fault)) == 1
    ensures IsTerminal((prior + RunAppends(job, fault))[|prior + RunAppends(job, fault)| - 1])
  {
    OneTerminalEntryLast(job, fault);
    TerminalCountConcat(prior, RunAppends(job, fault));
  }

  /** The worker does not look at what the stream already holds: a second
      clean run for the same session, whatever its clock and container, adds
      a second sentinel after the first. */
  lemma RepeatedRunsLeaveTwoSentinels(j1: Job, j2: Job)
    requires j1.featureId == j2.featureId && j1.chatId == j2.chatId
    ensures StreamKey(j1.featureId, j1.chatId) == StreamKey(j2.featureId, j2.chatId)
    ensures |RunAppends(j1, NoFault) + RunAppends(j2, NoFault)| == 2 * (MessageCount + 1)
    ensures TerminalCount(RunAppends(j1, NoFault) + RunAppends(j2, NoFault)) == 2
    ensures (RunAppends(j1, NoFault) + RunAppends(j2, NoFault))[MessageCount] == DoneEntry
    ensures (RunAppends(j1, NoFault) + RunAppends(j2, NoFault))[2 * MessageCount + 1] == DoneEntry
  {
    OneTerminalEntryLast(j1, NoFault);
    OneTerminalEntryLast(j2, NoFault);
    TerminalCountConcat(RunAppends(j1, NoFault), RunAppends(j2, NoFault));
  }

  // ---------------------------------------------------------------------
  // Stream keys

  /** Sessions whose feature id has no colon get distinct stream keys. */
  lemma StreamKeyInjective(f1: string, c1: string, f2: string, c2: string)
    requires ':' !in f1 && ':' !in f2
    requires StreamKey(f1, c1) == StreamKey(f2, c2)
    ensures f1 == f2 && c1 == c2
  {
    var p := "stream:";
    var t1, t2 := f1 + ":" + c1, f2 + ":" + c2;
    assert StreamKey(f1, c1) == p + t1 && StreamKey(f2, c2) == p + t2;
    assert t1 == (p + t1)[|p|..] == (p + t2)[|p|..] == t2;
    assert t1[|f1|] == ':' && t2[|f2|] == ':';
    assert forall j :: 0 <= j < |f1| ==> t1[j] == f1[j] != ':';
    assert forall j :: 0 <= j < |f2| ==> t2[j] == f2[j] != ':';
    assert |f1| == |f2|;
    assert f1 == t1[..|f1|] == t2[..|f2|] == f2;
    assert c1 == t1[|f1| + 1..] == t2[|f2| + 1..] == c2;
  }

  /** Keys of sessions whose chat ids hold no colon are distinct too: the
      chat id is what follows the key's last colon. */
  lemma StreamKeyInjectiveByChat(f1: string, c1: string, f2: string, c2: string)
    requires ':' !in c1 && ':' !in c2
    requires StreamKey(f1, c1) == StreamKey(f2, c2)
    ensures f1 == f2 && c1 == c2
  {
    ChatNotShorter(f1, c1, f2, c2);
    ChatNotShorter(f2, c2, f1, c1);
    var key := StreamKey(f1, c1);
    assert c1 == key[|key| - |c1|..] == c2;
    assert f1 == key[7..7 + |f1|] == f2;
  }

  /** A colon-free chat id is no longer than the text after any colon that
      ends another split of the same key. */
  lemma ChatNotShorter(f1: string, c1: string, f2: string, c2: string)
    requires ':' !in c2
    requires StreamKey(f1, c1) == StreamKey(f2, c2)
    ensures |c1| >= |c2|
  {
    var key := StreamKey(f1, c1);
    var n := |key|;
    if |c1| < |c2| {
      assert false;
    }
  }

  /** With a colon in one session's feature id and another's chat id, two
      different sessions share a stream. */
  lemma StreamKeyCollision()
    ensures exists f1, c1, f2, c2 :: (f1, c1) != (f2, c2) && StreamKey(f1, c1) == StreamKey(f2, c2)
  {
    assert ("a:b", "c") != ("a", "b:c");
    assert StreamKey("a:b", "c") == StreamKey("a", "b:c");
  }
}
