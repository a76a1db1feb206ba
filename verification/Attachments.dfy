/**
 * Clients attached to a session: who may write, and what each of them is sent.
 */
module Attachments {
  import opened Common
  import opened OutputLog

  type ClientId = string

  datatype Role = Writer | Observer
  datatype LifeState = Starting | Running | Attached | Stopping | Stopped | Failed
  datatype SlotError = WriterConflict | ClientMismatch | ClientNotAttached | NotRunning | InputTooLarge | ResizeFailed

  const CHANNEL_SLOTS := 128

  /**
   * A live channel: everything ever put in, how much the client has taken out,
   * where the history stood when it was made, and whether output was dropped.
   */
  datatype Channel = Channel(sent: seq<Chunk>, taken: nat, joined: nat, dropped: bool)

  /** A send never blocks: on a full channel the chunk is dropped. */
  function Send(ch: Channel, c: Chunk): Channel {
    if |ch.sent| - ch.taken < CHANNEL_SLOTS then ch.(sent := ch.sent + [c])
    else ch.(dropped := ch.dropped || IsOutput(c))
  }

  function Take(ch: Channel): Channel {
    if ch.taken < |ch.sent| then ch.(taken := ch.taken + 1) else ch
  }

  /** Control events carry no sequence number. */
  predicate IsOutput(c: Chunk) {
    c.num > 0
  }

  datatype Entry = Entry(role: Role, ch: Channel)

  /** The attachment side of a session's info, and its observers. */
  datatype Slot = Slot(writer: ClientId, attached: bool, attachedId: ClientId, state: LifeState,
                       observerCount: nat, observers: map<ClientId, Entry>)

  const NewSlot := Slot("", false, "", Running, 0, map[])

  function ObserverIds(observers: map<ClientId, Entry>): set<ClientId> {
    set c | c in observers && observers[c].role == Observer
  }

  function Recount(s: Slot): Slot {
    s.(observerCount := |ObserverIds(s.observers)|)
  }

  // ---------------------------------------------------------------------
  // The operations
  // ---------------------------------------------------------------------

  /** `live` is false once the output has ended: the client is then handed a closed channel and not entered. */
  function Attach(s: Slot, client: ClientId, role: Role, joined: nat, live: bool): Result<Slot, SlotError> {
    if role == Writer && s.writer != "" then Err(WriterConflict)
    else
      var others := s.observers - {client};
      var s1 := s.(observers := if live then others[client := Entry(role, Channel([], 0, joined, false))] else others);
      var s2 := if role == Writer then s1.(writer := client, attached := true, attachedId := client, state := Attached) else s1;
      Ok(Recount(s2))
  }

  function Detach(s: Slot, client: ClientId): Result<Slot, SlotError> {
    if client !in s.observers then Err(ClientMismatch)
    else
      var s1 := s.(observers := s.observers - {client});
      var s2 := Recount(if s.writer == client then s1.(writer := "", attached := false, attachedId := "") else s1);
      Ok(if s2.observers == map[] && s2.state == Attached then s2.(state := Running) else s2)
  }

  function SetRole(observers: map<ClientId, Entry>, client: ClientId, role: Role): map<ClientId, Entry> {
    if client in observers then observers[client := observers[client].(role := role)] else observers
  }

  function Claim(s: Slot, client: ClientId, force: bool): Result<Slot, SlotError> {
    if s.writer == client then Ok(s)
    else if s.writer != "" && !force then Err(WriterConflict)
    else if client !in s.observers then Err(ClientNotAttached)
    else
      var demoted := SetRole(s.observers, s.writer, Observer);
      Ok(Recount(s.(observers := SetRole(demoted, client, Writer), writer := client, attached := true, attachedId := client,
                    state := if s.state == Running then Attached else s.state)))
  }

  function Release(s: Slot, client: ClientId): Result<Slot, SlotError> {
    if s.writer != client then Err(ClientMismatch)
    else
      var s1 := Recount(s.(observers := SetRole(s.observers, client, Observer), writer := "", attached := false, attachedId := ""));
      Ok(if s1.observers == map[] && s1.state == Attached then s1.(state := Running) else s1)
  }

  function Stop(s: Slot): Slot {
    if s.state == Stopped || s.state == Failed then s else s.(state := Stopping)
  }

  function Exit(s: Slot, failed: bool): Slot {
    s.(state := if failed then Failed else Stopped)
  }

  /** Whether input from a client goes through to the process. */
  function InputGuard(s: Slot, client: ClientId, size: nat, limit: nat): Option<SlotError> {
    if limit > 0 && size > limit then Some(InputTooLarge)
    else if s.state != Running && s.state != Attached then Some(NotRunning)
    else if s.writer == "" then Some(ClientNotAttached)
    else if s.writer != client then Some(ClientMismatch)
    else None
  }

  // ---------------------------------------------------------------------
  // What every operation keeps
  // ---------------------------------------------------------------------

  ghost predicate SlotOk(s: Slot) {
    && "" !in s.observers
    && (s.writer != "" ==> s.writer in s.observers)
    && (forall c :: c in s.observers && s.observers[c].role == Writer ==> c == s.writer)
    && (s.attached <==> s.writer != "") && s.attachedId == s.writer
    && s.observerCount == |ObserverIds(s.observers)|
    && (s.state == Running ==> s.writer == "")
  }

  datatype SlotStep =
    | DoAttach(client: ClientId, role: Role, joined: nat)
    | DoDetach(client: ClientId)
    | DoClaim(client: ClientId, force: bool)
    | DoRelease(client: ClientId)
    | DoStop
    | DoExit(failed: bool)
    | DoInput(client: ClientId, size: nat)

  function Outcome(r: Result<Slot, SlotError>, s: Slot): Slot {
    if r.Ok? then r.value else s
  }

  function Act(s: Slot, step: SlotStep): Slot {
    match step
    case DoAttach(c, role, joined) => Outcome(Attach(s, c, role, joined, true), s)
    case DoDetach(c) => Outcome(Detach(s, c), s)
    case DoClaim(c, force) => Outcome(Claim(s, c, force), s)
    case DoRelease(c) => Outcome(Release(s, c), s)
    case DoStop => Stop(s)
    case DoExit(failed) => Exit(s, failed)
    case DoInput(_, _) => s
  }

  /** Client ids are never empty. */
  predicate Named(step: SlotStep) {
    match step
    case DoAttach(c, _, _) => c != ""
    case DoDetach(c) => c != ""
    case DoClaim(c, _) => c != ""
    case DoRelease(c) => c != ""
    case DoInput(c, _) => c != ""
    case _ => true
  }

  lemma ActKeepsSlot(s: Slot, step: SlotStep)
    requires SlotOk(s) && Named(step)
    ensures SlotOk(Act(s, step))
  {
  }

  /** The state after the first `n` steps. */
  function ActAll(s: Slot, steps: seq<SlotStep>, n: nat): Slot
    requires n <= |steps|
  {
    if n == 0 then s else Act(ActAll(s, steps, n - 1), steps[n - 1])
  }

  ghost predicate AllNamed(steps: seq<SlotStep>) {
    forall i :: 0 <= i < |steps| ==> Named(steps[i])
  }

  /**
   * Over every run: the active writer is attached, every writer-role entry is
   * the active writer, the attachment fields mirror it, the observer count
   * counts the observer entries, and a running session has no writer.
   */
  lemma {:induction false} SlotInvariant(steps: seq<SlotStep>, n: nat)
    requires AllNamed(steps) && n <= |steps|
    ensures SlotOk(ActAll(NewSlot, steps, n))
  {
    if n == 0 {
      assert ObserverIds(map[]) == {};
    } else {
      SlotInvariant(steps, n - 1);
      ActKeepsSlot(ActAll(NewSlot, steps, n - 1), steps[n - 1]);
    }
  }

  /** The writer's own detach or release, or another client's forced claim. */
  predicate Ends(step: SlotStep, writer: ClientId) {
    || step == DoDetach(writer) || step == DoRelease(writer)
    || (step.DoClaim? && step.client != writer && step.force)
  }

  predicate Accepted(s: Slot, step: SlotStep, limit: nat) {
    step.DoInput? && InputGuard(s, step.client, step.size, limit).None?
  }

  lemma WriterChange(s: Slot, step: SlotStep)
    requires s.writer != "" && Act(s, step).writer != s.writer
    ensures Ends(step, s.writer)
  {
  }

  /** If the writer at one point is no longer the writer at a later one, some step in between took it away. */
  lemma {:induction false} SomeStepEnds(s: Slot, steps: seq<SlotStep>, i: nat, j: nat, writer: ClientId)
    requires i <= j <= |steps| && writer != ""
    requires ActAll(s, steps, i).writer == writer && ActAll(s, steps, j).writer != writer
    ensures exists k :: i <= k < j && TakesAway(s, steps, k, writer)
  {
    if ActAll(s, steps, j - 1).writer == writer {
      WriterChange(ActAll(s, steps, j - 1), steps[j - 1]);
      assert TakesAway(s, steps, j - 1, writer);
    } else {
      SomeStepEnds(s, steps, i, j - 1, writer);
    }
  }

  /** Step `k` is one that ends the writer's turn, and it did. */
  ghost predicate TakesAway(s: Slot, steps: seq<SlotStep>, k: nat, writer: ClientId)
    requires k < |steps|
  {
    Ends(steps[k], writer) && ActAll(s, steps, k).writer == writer && ActAll(s, steps, k + 1).writer != writer
  }

  /** Between accepted inputs of two clients lies the step that ended the first one's turn. */
  lemma InputsAreExclusive(s: Slot, steps: seq<SlotStep>, i: nat, j: nat, limit: nat)
    requires i < j < |steps| && AllNamed(steps)
    requires Accepted(ActAll(s, steps, i), steps[i], limit) && Accepted(ActAll(s, steps, j), steps[j], limit)
    requires steps[i].client != steps[j].client
    ensures exists k :: i < k < j && TakesAway(s, steps, k, steps[i].client)
  {
    SomeStepEnds(s, steps, i, j, steps[i].client);
  }

  // --- exactly what every step does --------------------------------------

  /** At any point of a run, a step takes the slot from its writer if and only if it is one of these three. */
  lemma TurnEndsIff(steps: seq<SlotStep>, k: nat)
    requires AllNamed(steps) && k < |steps| && ActAll(NewSlot, steps, k).writer != ""
    ensures var s, step := ActAll(NewSlot, steps, k), steps[k];
            Act(s, step).writer != s.writer <==>
              || step == DoDetach(s.writer) || step == DoRelease(s.writer)
              || (step.DoClaim? && step.force && step.client != s.writer && step.client in s.observers)
  {
    SlotInvariant(steps, k);
  }

  /** At any point of a run, a client that does not hold the slot gets it with a step if and only if it is one of these two. */
  lemma TurnBeginsIff(steps: seq<SlotStep>, k: nat, client: ClientId)
    requires AllNamed(steps) && k < |steps| && client != "" && ActAll(NewSlot, steps, k).writer != client
    ensures var s, step := ActAll(NewSlot, steps, k), steps[k];
            Act(s, step).writer == client <==>
              || (step.DoAttach? && step.client == client && step.role == Writer && s.writer == "")
              || (step.DoClaim? && step.client == client && client in s.observers && (s.writer == "" || step.force))
  {
    SlotInvariant(steps, k);
  }

  /** At any point of a run, a client is attached after a step if and only if it attached with it, or was and did not detach. */
  lemma AttachedIff(steps: seq<SlotStep>, k: nat, client: ClientId)
    requires AllNamed(steps) && k < |steps|
    ensures var s, step := ActAll(NewSlot, steps, k), steps[k];
            client in Act(s, step).observers <==>
              || (step.DoAttach? && step.client == client && (step.role == Observer || s.writer == ""))
              || (client in s.observers && step != DoDetach(client))
  {
    SlotInvariant(steps, k);
  }

  /** The role a client has after a step, if it was attached and did not attach anew. */
  function RoleAfter(s: Slot, step: SlotStep, client: ClientId): Role
    requires client in s.observers
  {
    if step == DoRelease(client) && s.writer == client then Observer
    else if step.DoClaim? && step.client in s.observers && step.client != s.writer && (s.writer == "" || step.force) then
      if client == step.client then Writer else if client == s.writer then Observer else s.observers[client].role
    else s.observers[client].role
  }

  /** A new channel for who attaches; everyone else keeps theirs, and the role changes only by release and claim. */
  lemma EntriesAfter(s: Slot, step: SlotStep, client: ClientId)
    requires SlotOk(s) && Named(step) && client in Act(s, step).observers
    ensures var entry := Act(s, step).observers[client];
            if step.DoAttach? && step.client == client && (step.role == Observer || s.writer == "")
            then entry == Entry(step.role, Channel([], 0, step.joined, false))
            else client in s.observers && entry == Entry(RoleAfter(s, step, client), s.observers[client].ch)
  {
    if step.DoClaim? {
      ClaimEntries(s, step.client, step.force, client);
    } else if step.DoRelease? && s.writer == step.client {
      SetRoleMeans(s.observers, step.client, Observer, client);
    }
  }

  lemma SetRoleMeans(observers: map<ClientId, Entry>, at: ClientId, role: Role, client: ClientId)
    ensures var after := SetRole(observers, at, role);
            && after.Keys == observers.Keys
            && (client in after ==> after[client] == if client == at then observers[client].(role := role) else observers[client])
  {
  }

  lemma ClaimEntries(s: Slot, claimant: ClientId, force: bool, client: ClientId)
    requires client in s.observers
    ensures var after := Act(s, DoClaim(claimant, force)).observers;
            client in after && after[client] == Entry(RoleAfter(s, DoClaim(claimant, force), client), s.observers[client].ch)
  {
    var demoted := SetRole(s.observers, s.writer, Observer);
    SetRoleMeans(s.observers, s.writer, Observer, client);
    SetRoleMeans(demoted, claimant, Writer, client);
  }

  /** After giving up the slot, a client is still attached, as an observer, and nobody writes. */
  lemma ReleaseFrees(s: Slot, client: ClientId)
    requires SlotOk(s) && client != "" && s.writer == client
    ensures var after := Act(s, DoRelease(client));
            && after.writer == "" && !after.attached && after.attachedId == ""
            && client in after.observers && after.observers[client].role == Observer
  {
  }

  /** When an operation is refused, and with what. */
  lemma RefusedIff(s: Slot, client: ClientId, role: Role, joined: nat, force: bool)
    ensures Attach(s, client, role, joined, true).Err? <==> role == Writer && s.writer != ""
    ensures Detach(s, client).Err? <==> client !in s.observers
    ensures Release(s, client).Err? <==> s.writer != client
    ensures Claim(s, client, force) == Err(WriterConflict) <==> s.writer != "" && s.writer != client && !force
    ensures Claim(s, client, force) == Err(ClientNotAttached) <==>
              s.writer != client && (s.writer == "" || force) && client !in s.observers
    ensures Claim(s, client, force).Ok? <==>
              s.writer == client || (client in s.observers && (s.writer == "" || force))
  {
  }

  /** An attached session has someone attached. */
  ghost predicate NotAlone(s: Slot) {
    s.state == Attached ==> s.observers != map[]
  }

  lemma {:induction false} AttachedMeansSomeone(steps: seq<SlotStep>, n: nat)
    requires AllNamed(steps) && n <= |steps|
    ensures NotAlone(ActAll(NewSlot, steps, n))
  {
    if n > 0 {
      AttachedMeansSomeone(steps, n - 1);
      SlotInvariant(steps, n - 1);
      StateAfter(ActAll(NewSlot, steps, n - 1), steps[n - 1]);
    }
  }

  /** The life of a session, step by step. */
  lemma StateAfter(s: Slot, step: SlotStep)
    requires SlotOk(s) && NotAlone(s) && Named(step)
    ensures NotAlone(Act(s, step))
    ensures Act(s, step).state ==
              match step
              case DoAttach(_, role, _) => if role == Writer && s.writer == "" then Attached else s.state
              case DoDetach(c) => if s.state == Attached && s.observers.Keys == {c} then Running else s.state
              case DoClaim(c, _) => if s.state == Running && c in s.observers then Attached else s.state
              case DoStop => if s.state == Stopped || s.state == Failed then s.state else Stopping
              case DoExit(failed) => if failed then Failed else Stopped
              case _ => s.state
  {
    if step.DoDetach? && step.client in s.observers {
      var rest := s.observers - {step.client};
      assert rest.Keys == s.observers.Keys - {step.client};
      assert rest == map[] <==> rest.Keys == {};
    } else if step.DoRelease? {
      ReleaseKeepsState(s, step.client);
    } else if step.DoAttach? && (step.role == Observer || s.writer == "") {
      assert step.client in Act(s, step).observers;
    } else if step.DoClaim? && step.client in s.observers {
      assert step.client in Act(s, step).observers;
    }
  }

  /**
   * At any point of a run, the input of a client is accepted if and only if the
   * session is attached, the client is its writer and the size is within the limit;
   * otherwise the first of these to fail, size first, gives the error.
   */
  lemma InputAcceptedIff(steps: seq<SlotStep>, k: nat, client: ClientId, size: nat, limit: nat)
    requires AllNamed(steps) && k <= |steps| && client != ""
    ensures var s := ActAll(NewSlot, steps, k);
            var r, fits, takes := InputGuard(s, client, size, limit), limit == 0 || size <= limit, s.state == Running || s.state == Attached;
            && (r.None? <==> fits && s.state == Attached && s.writer == client)
            && (r == Some(InputTooLarge) <==> !fits)
            && (r == Some(NotRunning) <==> fits && !takes)
            && (r == Some(ClientNotAttached) <==> fits && takes && s.writer == "")
            && (r == Some(ClientMismatch) <==> fits && takes && s.writer != "" && s.writer != client)
  {
    SlotInvariant(steps, k);
  }

  // --- the writer's own entry --------------------------------------------

  /** The entry of the writer has the writer's role. */
  predicate WriterInRole(s: Slot) {
    s.writer != "" ==> s.writer in s.observers && s.observers[s.writer].role == Writer
  }

  /** The writer attaches again, as an observer: accepted, and it keeps the slot. */
  predicate Demotes(s: Slot, step: SlotStep) {
    s.writer != "" && step.DoAttach? && step.client == s.writer && step.role == Observer
  }

  /** A step keeps the writer's entry in its role if and only if it is not the writer attaching again as an observer. */
  lemma RoleKeptIff(s: Slot, step: SlotStep)
    requires SlotOk(s) && WriterInRole(s) && Named(step)
    ensures WriterInRole(Act(s, step)) <==> !Demotes(s, step)
  {
  }

  predicate DemotesAt(steps: seq<SlotStep>, k: nat)
    requires k < |steps|
  {
    Demotes(ActAll(NewSlot, steps, k), steps[k])
  }

  /** Over every run without such a step, the writer's entry has the writer's role. */
  lemma {:induction false} RoleInvariant(steps: seq<SlotStep>, n: nat)
    requires AllNamed(steps) && n <= |steps|
    requires forall k :: 0 <= k < n ==> !DemotesAt(steps, k)
    ensures WriterInRole(ActAll(NewSlot, steps, n))
  {
    if n > 0 {
      RoleInvariant(steps, n - 1);
      SlotInvariant(steps, n - 1);
      assert !DemotesAt(steps, n - 1);
      RoleKeptIff(ActAll(NewSlot, steps, n - 1), steps[n - 1]);
    }
  }

  /** A writer attaches, then attaches again as an observer: it still holds the slot, and is counted as an observer. */
  lemma WriterCountedAsObserver(client: ClientId)
    requires client != ""
    ensures var s := Act(Act(NewSlot, DoAttach(client, Writer, 0)), DoAttach(client, Observer, 0));
            && s.writer == client && s.state == Attached && client in s.observers && s.observers[client].role == Observer
            && s.observerCount == 1 && !WriterInRole(s)
  {
    var s := Act(Act(NewSlot, DoAttach(client, Writer, 0)), DoAttach(client, Observer, 0));
    assert ObserverIds(s.observers) == {client};
  }

  // --- what the control client is told -----------------------------------

  /** Whether a step passes the session's state on to the control client. */
  predicate Notifies(s: Slot, step: SlotStep) {
    match step
    case DoAttach(c, role, joined) => role == Writer && Attach(s, c, role, joined, true).Ok?
    case DoDetach(c) => c in s.observers && s.observers.Keys == {c} && s.state == Attached
    case DoStop => s.state != Stopped && s.state != Failed
    case DoExit(_) => true
    case _ => false
  }

  /**
   * At any point of a run, a step changes the state without a notification if and
   * only if it is the claim of an attached client on a running session.
   */
  lemma UnreportedIff(steps: seq<SlotStep>, k: nat)
    requires AllNamed(steps) && k < |steps|
    ensures var s := ActAll(NewSlot, steps, k);
            Act(s, steps[k]).state != s.state && !Notifies(s, steps[k]) <==>
              steps[k].DoClaim? && s.state == Running && steps[k].client in s.observers
  {
    var s, step := ActAll(NewSlot, steps, k), steps[k];
    SlotInvariant(steps, k);
    if step.DoDetach? && step.client in s.observers {
      DetachNotifies(s, step.client);
    } else if step.DoRelease? {
      ReleaseKeepsState(s, step.client);
    }
  }

  lemma DetachNotifies(s: Slot, c: ClientId)
    requires c in s.observers
    ensures Act(s, DoDetach(c)).state != s.state <==> Notifies(s, DoDetach(c))
  {
    var rest := s.observers - {c};
    assert rest.Keys == s.observers.Keys - {c};
    assert rest == map[] <==> rest.Keys == {};
  }

  /** The writer stays attached when it gives up the slot. */
  lemma ReleaseKeepsState(s: Slot, c: ClientId)
    requires SlotOk(s) && c != ""
    ensures Act(s, DoRelease(c)).state == s.state
  {
    if s.writer == c {
      assert c in SetRole(s.observers, c, Observer);
    }
  }

  /**
   * Once the output has ended, the invariant survives a successful attach if
   * and only if it is an observer's, by a client that is not the writer.
   */
  lemma AttachAfterEnd(s: Slot, client: ClientId, role: Role, joined: nat)
    requires SlotOk(s) && client != "" && Attach(s, client, role, joined, false).Ok?
    ensures SlotOk(Attach(s, client, role, joined, false).value) <==> role == Observer && client != s.writer
  {
  }

  // ---------------------------------------------------------------------
  // Replay followed by live output
  // ---------------------------------------------------------------------

  function Outputs(chunks: seq<Chunk>): seq<Chunk> {
    if chunks == [] then []
    else
      var c := chunks[|chunks| - 1];
      Outputs(chunks[..|chunks| - 1]) + if IsOutput(c) then [c] else []
  }

  datatype FeedStep = Append(chunk: Chunk) | Control(chunk: Chunk) | Drain

  /** The history and one channel, as output, control events and the client's reads go by. */
  datatype Feed = Feed(log: seq<Chunk>, ch: Channel)

  function FeedOne(f: Feed, s: FeedStep): Feed {
    match s
    case Append(c) => Feed(f.log + [c], Send(f.ch, c))
    case Control(c) => f.(ch := Send(f.ch, c))
    case Drain => f.(ch := Take(f.ch))
  }

  ghost predicate Allowed(f: Feed, s: FeedStep) {
    match s
    case Append(c) => c.num == |f.log| + 1
    case Control(c) => c.num == 0
    case Drain => true
  }

  function FeedAll(f: Feed, steps: seq<FeedStep>): Feed {
    if steps == [] then f else FeedOne(FeedAll(f, steps[..|steps| - 1]), steps[|steps| - 1])
  }

  ghost predicate AllAllowed(f: Feed, steps: seq<FeedStep>) {
    steps == [] || (AllAllowed(f, steps[..|steps| - 1]) && Allowed(FeedAll(f, steps[..|steps| - 1]), steps[|steps| - 1]))
  }

  /** What a channel has carried: later chunks of the history, in order, and all of them unless some were dropped. */
  ghost predicate Carries(f: Feed) {
    && IsLog(f.log) && f.ch.joined <= |f.log| && f.ch.taken <= |f.ch.sent|
    && FromHistory(Outputs(f.ch.sent), f.log, f.ch.joined)
    && (!f.ch.dropped ==> |Outputs(f.ch.sent)| == |f.log| - f.ch.joined)
  }

  /** Increasing, each past `joined`, each the chunk of that number. */
  ghost predicate FromHistory(out: seq<Chunk>, log: seq<Chunk>, joined: nat) {
    && Increasing(out)
    && forall i :: 0 <= i < |out| ==> joined < out[i].num <= |log| && out[i] == log[out[i].num - 1]
  }

  lemma OutputsSnoc(sent: seq<Chunk>, c: Chunk)
    ensures Outputs(sent + [c]) == Outputs(sent) + if IsOutput(c) then [c] else []
  {
    assert (sent + [c])[..|sent|] == sent;
  }

  lemma FromHistorySnoc(out: seq<Chunk>, log: seq<Chunk>, joined: nat, c: Chunk)
    requires FromHistory(out, log, joined) && joined <= |log| && c.num == |log| + 1
    ensures FromHistory(out, log + [c], joined) && FromHistory(out + [c], log + [c], joined)
  {
  }

  lemma AppendCarries(f: Feed, c: Chunk)
    requires Carries(f) && c.num == |f.log| + 1
    ensures Carries(Feed(f.log + [c], Send(f.ch, c)))
  {
    OutputsSnoc(f.ch.sent, c);
    FromHistorySnoc(Outputs(f.ch.sent), f.log, f.ch.joined, c);
  }

  lemma ControlCarries(f: Feed, c: Chunk)
    requires Carries(f) && c.num == 0
    ensures Carries(f.(ch := Send(f.ch, c)))
  {
    OutputsSnoc(f.ch.sent, c);
  }

  lemma FeedOneCarries(f: Feed, s: FeedStep)
    requires Carries(f) && Allowed(f, s)
    ensures Carries(FeedOne(f, s)) && FeedOne(f, s).ch.joined == f.ch.joined
    ensures !s.Append? ==> FeedOne(f, s).log == f.log
  {
    match s
    case Append(c) => AppendCarries(f, c);
    case Control(c) => ControlCarries(f, c);
    case Drain =>
  }

  /** Increasing numbers that fill their range are the whole range. */
  lemma {:induction false} FullRange(out: seq<Chunk>, log: seq<Chunk>, joined: nat, n: nat)
    requires FromHistory(out, log, joined) && n <= |out| <= |log| - joined
    requires |out| == |log| - joined
    ensures forall i :: 0 <= i < n ==> out[i].num >= joined + i + 1
  {
    if n > 0 {
      FullRange(out, log, joined, n - 1);
      if n > 1 {
        assert out[n - 2].num < out[n - 1].num;
      }
    }
  }

  lemma {:induction false} FullRangeDown(out: seq<Chunk>, log: seq<Chunk>, joined: nat, n: nat)
    requires FromHistory(out, log, joined) && n <= |out| && |out| == |log| - joined
    ensures forall i :: n <= i < |out| ==> out[i].num <= joined + i + 1
    decreases |out| - n
  {
    if n < |out| {
      FullRangeDown(out, log, joined, n + 1);
      if n + 1 < |out| {
        assert out[n].num < out[n + 1].num;
      }
    }
  }

  /** The client has room in its channel whenever something is sent. */
  ghost predicate KeepsUp(f: Feed, steps: seq<FeedStep>) {
    steps == [] ||
    var init, last := steps[..|steps| - 1], steps[|steps| - 1];
    KeepsUp(f, init) && (!last.Drain? ==> |FeedAll(f, init).ch.sent| - FeedAll(f, init).ch.taken < CHANNEL_SLOTS)
  }

  /** A client that never has 128 chunks unread loses nothing. */
  lemma {:induction false} KeepingUpLosesNothing(f: Feed, steps: seq<FeedStep>)
    requires !f.ch.dropped && KeepsUp(f, steps)
    ensures !FeedAll(f, steps).ch.dropped
  {
    if steps != [] {
      KeepingUpLosesNothing(f, steps[..|steps| - 1]);
    }
  }

  lemma {:induction false} FeedCarries(f: Feed, steps: seq<FeedStep>)
    requires Carries(f) && AllAllowed(f, steps)
    ensures Carries(FeedAll(f, steps)) && FeedAll(f, steps).ch.joined == f.ch.joined
    ensures f.log <= FeedAll(f, steps).log
  {
    if steps != [] {
      FeedCarries(f, steps[..|steps| - 1]);
      FeedOneCarries(FeedAll(f, steps[..|steps| - 1]), steps[|steps| - 1]);
    }
  }

  /** What the attach returned for replay: the retained chunks past the cursor. */
  ghost function Replay(log: seq<Chunk>, evicted: nat, after: nat): seq<Chunk>
    requires evicted <= |log|
  {
    log[Min(|log|, Max(after, evicted))..]
  }

  /**
   * For every attach and whatever happens afterwards: replay followed by the
   * live output is strictly increasing in sequence, and unless the channel
   * overflowed it is the retained chunks past the cursor followed by every
   * chunk appended later. Control events never enter the history.
   */
  lemma ReplayThenLive(log: seq<Chunk>, evicted: nat, after: nat, steps: seq<FeedStep>)
    requires IsLog(log) && evicted <= |log|
    requires AllAllowed(Feed(log, Channel([], 0, |log|, false)), steps)
    ensures var f := FeedAll(Feed(log, Channel([], 0, |log|, false)), steps);
            var live := Outputs(f.ch.sent);
            && log <= f.log
            && Increasing(Replay(log, evicted, after) + live)
            && (!f.ch.dropped ==> live == f.log[|log|..])
            && (!f.ch.dropped ==> Replay(log, evicted, after) + live == f.log[Min(|log|, Max(after, evicted))..])
  {
    var f0 := Feed(log, Channel([], 0, |log|, false));
    FeedCarries(f0, steps);
    var f := FeedAll(f0, steps);
    var live := Outputs(f.ch.sent);
    var k := Min(|log|, Max(after, evicted));
    TailThenLater(log, k, f.log, live);
    if !f.ch.dropped {
      WholeRange(live, f.log, |log|);
      TailsJoin(log, k, f.log);
    }
  }

  lemma TailThenLater(log: seq<Chunk>, k: nat, log': seq<Chunk>, live: seq<Chunk>)
    requires IsLog(log) && k <= |log| && FromHistory(live, log', |log|)
    ensures Increasing(log[k..] + live)
  {
    var replay := log[k..];
    assert forall i :: 0 <= i < |replay| ==> replay[i].num == k + i + 1;
  }

  lemma WholeRange(live: seq<Chunk>, log: seq<Chunk>, joined: nat)
    requires FromHistory(live, log, joined) && joined <= |log| && |live| == |log| - joined
    ensures live == log[joined..]
  {
    FullRange(live, log, joined, |live|);
    FullRangeDown(live, log, joined, 0);
    assert forall i :: 0 <= i < |live| ==> live[i] == log[joined + i];
  }

  lemma TailsJoin(log: seq<Chunk>, k: nat, log': seq<Chunk>)
    requires k <= |log| && log <= log'
    ensures log[k..] + log'[|log|..] == log'[k..]
  {
    assert log' == log + log'[|log|..];
  }

  // ---------------------------------------------------------------------
  // The replay gap flag
  // ---------------------------------------------------------------------

  predicate ReplayGap(oldest: nat, after: nat) {
    oldest > 0 && after > 0 && after < oldest - 1
  }

  /**
   * For a ring that holds something and a cursor past zero, the flag is set
   * exactly when some chunk past the cursor was evicted. An emptied ring and a
   * zero cursor never set it.
   */
  lemma ReplayGapMeaning(log: seq<Chunk>, evicted: nat, after: nat)
    requires IsLog(log) && evicted <= |log|
    ensures var oldest := if evicted == |log| then 0 else evicted + 1;
            ReplayGap(oldest, after) <==>
              after > 0 && evicted < |log| && exists i :: 0 <= i < evicted && log[i].num > after
  {
    if 0 < after < evicted {
      assert log[after].num > after;
    }
  }
}
