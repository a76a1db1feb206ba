/**
 * The remote-command ledger: a durable claim before every dispatch, over a
 * disk on which any step may fail and the process may die at any point.
 */
module Ledger {
  import opened Common

  const MAX_ENTRIES := 10000
  const MAX_RESPONSE_BYTES := 16384
  const MAX_AHEAD := 30

  datatype Command = Command(id: string, organization: string, installation: string, session: string, user: string,
                             action: string, pendingId: string, expiresAt: int, text: string, decision: string)

  datatype Status = Rejected | Unknown | Accepted

  datatype Code =
    | NoCode | InvalidCommand | WrongInstallation | Unsupported | LedgerUnavailable | IdempotencyConflict | Expired
    | LedgerFull | DeliveryUnknown | WriterConflict | PendingRequestMismatch | SessionUnavailable

  datatype Reply = Reply(id: string, status: Status, code: Code)

  /** The keyed hash of a command, taken to be collision-free. */
  datatype Fingerprint = Mac(credential: string, body: Command)

  datatype Record = Record(fingerprint: Fingerprint, reply: Reply)

  // ---------------------------------------------------------------------
  // Which commands are well formed
  // ---------------------------------------------------------------------

  function Utf8Size(s: string): nat {
    if s == [] then 0
    else
      var c := s[|s| - 1] as int;
      Utf8Size(s[..|s| - 1]) + if c < 0x80 then 1 else if c < 0x800 then 2 else if c < 0x10000 then 3 else 4
  }

  predicate IsSpace(c: char) {
    var n := c as int;
    9 <= n <= 13 || n in {0x20, 0x85, 0xA0, 0x1680, 0x2028, 0x2029, 0x202F, 0x205F, 0x3000} || 0x2000 <= n <= 0x200A
  }

  predicate ValidResponse(text: string) {
    && Utf8Size(text) <= MAX_RESPONSE_BYTES
    && (exists i :: 0 <= i < |text| && !IsSpace(text[i]))
    && forall i :: 0 <= i < |text| ==> !((text[i] as int < 32 && text[i] != '\n' && text[i] != '\t') || text[i] as int == 127)
  }

  lemma {:induction false} AsciiSize(text: string)
    requires forall i :: 0 <= i < |text| ==> text[i] as int < 0x80
    ensures Utf8Size(text) == |text|
  {
    if text != [] {
      AsciiSize(text[..|text| - 1]);
    }
  }

  /** Text of printable ASCII, tabs and newlines is valid if and only if it is not all blank and has at most 16384 characters. */
  lemma AsciiResponseIff(text: string)
    requires forall i :: 0 <= i < |text| ==> ' ' <= text[i] <= '~' || text[i] == '\t' || text[i] == '\n'
    ensures ValidResponse(text) <==> |text| <= 16384 && exists i :: 0 <= i < |text| && text[i] > ' '
  {
    AsciiSize(text);
    forall i | 0 <= i < |text| ensures IsSpace(text[i]) <==> text[i] <= ' ' {
    }
  }

  /** No other control character is let through. */
  lemma ControlsAreRefused(text: string, i: nat)
    requires i < |text| && (text[i] < ' ' || text[i] as int == 127) && text[i] != '\t' && text[i] != '\n'
    ensures !ValidResponse(text)
  {
  }

  predicate ValidPayload(cmd: Command) {
    if cmd.action == "instruct" then cmd.pendingId == "" && cmd.decision == "" && ValidResponse(cmd.text)
    else if cmd.action == "respond" then cmd.decision == "" && ValidResponse(cmd.text)
    else cmd.action == "approve" && cmd.text == "" && (cmd.decision == "accept" || cmd.decision == "cancel")
  }

  predicate IsHexDigit(c: char) {
    '0' <= c <= '9' || 'a' <= c <= 'f'
  }

  /** The one spelling of a UUID that parsing and printing gives back. */
  predicate CanonicalUuid(s: string) {
    |s| == 36 && forall i :: 0 <= i < 36 ==> if i in {8, 13, 18, 23} then s[i] == '-' else IsHexDigit(s[i])
  }

  predicate WellFormed(cmd: Command) {
    && CanonicalUuid(cmd.id)
    && cmd.user != "" && Utf8Size(cmd.user) <= 256 && cmd.session != "" && Utf8Size(cmd.session) <= 256
    && (cmd.action == "instruct" || cmd.pendingId != "") && Utf8Size(cmd.pendingId) <= 256
    && ValidPayload(cmd)
  }

  // ---------------------------------------------------------------------
  // The disk
  // ---------------------------------------------------------------------

  /** What a file holds; a partly written record does not decode. */
  datatype Content = Torn | Full(rec: Record)

  /** A file, and what a crash may leave in its place. */
  datatype Entry =
    | Settled(now: Content)                     // synced: a crash keeps it
    | Fresh(now: Content)                       // created but not synced: it may vanish or be cut short
    | Swapped(before: Content, now: Content)    // replaced by an unsynced rename: either version may be left

  /** The ledger directory: one record file per command, and the temporary files of final writes. */
  datatype Disk = Disk(records: map<string, Entry>, temps: map<string, Entry>)

  const NoFiles := Disk(map[], map[])

  datatype WriteOp = Open | Write | Sync | Close | Rename | SyncDir

  datatype Fault = NoFault | FailAt(op: WriteOp) | DieAt(op: WriteOp)

  datatype Outcome = Done | Failed | Died

  predicate Hits(f: Fault, op: WriteOp) {
    f == FailAt(op) || f == DieAt(op)
  }

  function Stopped(f: Fault): Outcome {
    if f.DieAt? then Died else Failed
  }

  datatype Written = Written(disk: Disk, outcome: Outcome)

  /** The claim: created exclusively, written, synced, and the directory synced. */
  function WriteClaim(d: Disk, id: string, rec: Record, f: Fault): Written {
    if Hits(f, Open) then Written(d, Stopped(f))
    else if id in d.records then Written(d, Failed)
    else if Hits(f, Write) then Written(d.(records := d.records[id := Fresh(Torn)]), Stopped(f))
    else if Hits(f, Sync) || Hits(f, Close) || Hits(f, SyncDir) then
      Written(d.(records := d.records[id := Fresh(Full(rec))]), Stopped(f))
    else Written(d.(records := d.records[id := Settled(Full(rec))]), Done)
  }

  /** The final record: a temporary file, synced, then renamed over the claim. */
  function WriteFinal(d: Disk, id: string, rec: Record, f: Fault): Written {
    if Hits(f, Open) then Written(d, Stopped(f))
    else if id in d.temps then Written(d, Failed)
    else if Hits(f, Write) then Written(d.(temps := d.temps[id := Fresh(Torn)]), Stopped(f))
    else if Hits(f, Sync) || Hits(f, Close) || Hits(f, Rename) then
      Written(d.(temps := d.temps[id := Fresh(Full(rec))]), Stopped(f))
    else if Hits(f, SyncDir) then
      Written(d.(records := d.records[id := if id in d.records then Swapped(d.records[id].now, Full(rec)) else Fresh(Full(rec))]),
              Stopped(f))
    else Written(d.(records := d.records[id := Settled(Full(rec))]), Done)
  }

  /** A crash may leave this content in the entry's place. */
  predicate MayLeave(e: Entry, c: Content) {
    match e
    case Settled(now) => c == now
    case Fresh(now) => c == Torn || c == now
    case Swapped(before, now) => c == before || c == now
  }

  /** What the next process may find. */
  ghost predicate Survives(d: Disk, d': Disk) {
    && (forall id :: id in d'.records ==> id in d.records && d'.records[id].Settled? && MayLeave(d.records[id], d'.records[id].now))
    && (forall id :: id in d.records && !d.records[id].Fresh? ==> id in d'.records)
    && (forall id :: id in d'.temps ==> id in d.temps || (id in d.records && d.records[id].Swapped?))
  }

  // ---------------------------------------------------------------------
  // Executing a command
  // ---------------------------------------------------------------------

  datatype Target = Responder | Instructor | Approver

  /** The call that reaches the session. */
  datatype Call = Call(target: Target, session: string, pendingId: string, value: string)

  function CallFor(cmd: Command): Call {
    Call(if cmd.action == "approve" then Approver else if cmd.action == "instruct" then Instructor else Responder,
         cmd.session, cmd.pendingId, if cmd.action == "approve" then cmd.decision else cmd.text)
  }

  /** How the dispatched call ended; `Cut` is the process dying during it. */
  datatype Ending = Succeeded | Conflict | Mismatch | NoSession | NotSupported | OtherError | Cut

  datatype Sent = Sent(cmd: Command, credential: string, call: Call, ending: Ending)

  datatype Config = Config(organization: string, installation: string, credential: string, targets: set<Target>, hasPath: bool)

  /** Everything about one delivery that the command does not say. */
  datatype Env = Env(cfg: Config, now: int, nowAgain: int, readFault: bool, mkdirOk: bool, listOk: bool,
                     claim: Fault, ending: Ending, final: Fault)

  datatype State = State(disk: Disk, log: seq<Sent>, down: bool)

  const NewState := State(NoFiles, [], false)

  function Refusal(cmd: Command, code: Code): Reply {
    Reply(cmd.id, Rejected, code)
  }

  function UnknownReply(id: string): Reply {
    Reply(id, Unknown, DeliveryUnknown)
  }

  function ReplyFor(id: string, ending: Ending): Reply {
    match ending
    case Succeeded => Reply(id, Accepted, NoCode)
    case Conflict => Reply(id, Rejected, WriterConflict)
    case Mismatch => Reply(id, Rejected, PendingRequestMismatch)
    case NoSession => Reply(id, Rejected, SessionUnavailable)
    case NotSupported => Reply(id, Rejected, Unsupported)
    case _ => UnknownReply(id)
  }

  /** Refusals that do not look at the ledger. */
  function Screen(cmd: Command, cfg: Config): Option<Code> {
    if !WellFormed(cmd) then Some(InvalidCommand)
    else if cmd.organization != cfg.organization || cmd.installation != cfg.installation then Some(WrongInstallation)
    else if CallFor(cmd).target !in cfg.targets || !cfg.hasPath then Some(Unsupported)
    else None
  }

  function FingerprintOf(cmd: Command, cfg: Config): Fingerprint {
    Mac(cfg.credential, cmd)
  }

  /** What the ledger already says about the command, if anything. */
  function Replay(d: Disk, cmd: Command, env: Env): Option<Reply> {
    if env.readFault then Some(Refusal(cmd, LedgerUnavailable))
    else if cmd.id !in d.records then None
    else match d.records[cmd.id].now
      case Torn => Some(Refusal(cmd, LedgerUnavailable))
      case Full(rec) =>
        if rec.fingerprint != FingerprintOf(cmd, env.cfg) then Some(Refusal(cmd, IdempotencyConflict)) else Some(rec.reply)
  }

  /** Reasons not to make a new claim. */
  function NoClaim(d: Disk, cmd: Command, env: Env): Option<Code> {
    if env.now > cmd.expiresAt || cmd.expiresAt > env.nowAgain + MAX_AHEAD then Some(Expired)
    else if !env.mkdirOk then Some(LedgerUnavailable)
    else if !env.listOk || |d.records| + |d.temps| >= MAX_ENTRIES then Some(LedgerFull)
    else None
  }

  function Early(d: Disk, cmd: Command, env: Env): Option<Reply> {
    if Screen(cmd, env.cfg).Some? then Some(Refusal(cmd, Screen(cmd, env.cfg).value))
    else if Replay(d, cmd, env).Some? then Replay(d, cmd, env)
    else if NoClaim(d, cmd, env).Some? then Some(Refusal(cmd, NoClaim(d, cmd, env).value))
    else None
  }

  function ClaimOf(cmd: Command, credential: string): Record {
    Record(Mac(credential, cmd), UnknownReply(cmd.id))
  }

  function FinalOf(e: Sent): Record {
    Record(Mac(e.credential, e.cmd), ReplyFor(e.cmd.id, e.ending))
  }

  function SentFor(cmd: Command, env: Env): Sent {
    Sent(cmd, env.cfg.credential, CallFor(cmd), env.ending)
  }

  /** From the dispatch on, with the claim in place. */
  function Dispatched(s: State, cmd: Command, env: Env): (State, Option<Reply>) {
    var s1 := s.(log := s.log + [SentFor(cmd, env)]);
    if env.ending == Cut then (s1.(down := true), None)
    else
      var fin := WriteFinal(s.disk, cmd.id, FinalOf(SentFor(cmd, env)), env.final);
      if fin.outcome == Died then (s1.(disk := fin.disk, down := true), None)
      else (s1.(disk := fin.disk), Some(ReplyFor(cmd.id, env.ending)))
  }

  /** One delivery: the state it leaves and the reply, unless the process died. */
  function Execute(s: State, cmd: Command, env: Env): (State, Option<Reply>) {
    if Early(s.disk, cmd, env).Some? then (s, Early(s.disk, cmd, env))
    else
      var claim := WriteClaim(s.disk, cmd.id, ClaimOf(cmd, env.cfg.credential), env.claim);
      match claim.outcome
      case Died => (s.(disk := claim.disk, down := true), None)
      case Failed => (s.(disk := claim.disk), Some(Refusal(cmd, LedgerUnavailable)))
      case Done => Dispatched(s.(disk := claim.disk), cmd, env)
  }

  // ---------------------------------------------------------------------
  // Runs
  // ---------------------------------------------------------------------

  datatype Event = Deliver(cmd: Command, env: Env) | Reboot(left: Disk)

  /**
   * The directory is made when the first command needs it, and its own entry in
   * the parent is never synced: unless it was there for good before (`rooted`), a
   * crash may take it away with everything in it.
   */
  ghost predicate Enabled(rooted: bool, s: State, e: Event) {
    match e
    case Deliver(_, _) => !s.down
    case Reboot(left) => Survives(s.disk, left) || (!rooted && left == NoFiles)
  }

  function Next(s: State, e: Event): State {
    match e
    case Deliver(cmd, env) => Execute(s, cmd, env).0
    case Reboot(left) => s.(disk := left, down := false)
  }

  /** The state after a run, if every event of it was possible. */
  ghost function After(rooted: bool, events: seq<Event>): Option<State> {
    if events == [] then Some(NewState)
    else
      var before := After(rooted, events[..|events| - 1]);
      if before.Some? && Enabled(rooted, before.value, events[|events| - 1])
      then Some(Next(before.value, events[|events| - 1])) else None
  }

  // ---------------------------------------------------------------------
  // The invariant
  // ---------------------------------------------------------------------

  ghost predicate Dispatches(log: seq<Sent>, id: string) {
    exists i :: 0 <= i < |log| && log[i].cmd.id == id
  }

  ghost predicate OncePerId(log: seq<Sent>) {
    forall i, j :: 0 <= i < j < |log| ==> log[i].cmd.id != log[j].cmd.id
  }

  predicate Mine(c: Content, e: Sent) {
    c == Full(ClaimOf(e.cmd, e.credential)) || c == Full(FinalOf(e))
  }

  /** The record of a dispatched command survives every crash, as its claim or as its result. */
  predicate Keeps(entry: Entry, e: Sent) {
    match entry
    case Settled(now) => Mine(now, e)
    case Fresh(_) => false
    case Swapped(before, now) => Mine(before, e) && Mine(now, e)
  }

  /** The record of a command that was never dispatched says so or says nothing. */
  predicate Unsent(entry: Entry, id: string) {
    !entry.Swapped? && (entry.now == Torn || entry.now.rec.reply == UnknownReply(id))
  }

  ghost predicate Kept(d: Disk, e: Sent) {
    e.cmd.id in d.records && Keeps(d.records[e.cmd.id], e)
  }

  ghost predicate AllKept(s: State) {
    forall i :: 0 <= i < |s.log| ==> Kept(s.disk, s.log[i])
  }

  ghost predicate Inv(s: State) {
    && OncePerId(s.log) && AllKept(s)
    && (forall id :: id in s.disk.records && !Dispatches(s.log, id) ==> Unsent(s.disk.records[id], id))
    && (forall id :: id in s.disk.temps ==> Dispatches(s.log, id))
    && |s.disk.records| <= MAX_ENTRIES
  }

  lemma NotYetDispatched(s: State, id: string)
    requires AllKept(s) && id !in s.disk.records
    ensures !Dispatches(s.log, id)
  {
    forall i | 0 <= i < |s.log| ensures s.log[i].cmd.id != id {
      assert Kept(s.disk, s.log[i]);
    }
  }

  /** A new record of an undispatched command. */
  lemma AddUnsent(s: State, id: string, entry: Entry)
    requires Inv(s) && id !in s.disk.records && |s.disk.records| < MAX_ENTRIES && Unsent(entry, id)
    ensures Inv(s.(disk := s.disk.(records := s.disk.records[id := entry])))
  {
    var d' := s.disk.(records := s.disk.records[id := entry]);
    forall i | 0 <= i < |s.log| ensures Kept(d', s.log[i]) {
      assert Kept(s.disk, s.log[i]);
    }
  }

  lemma ClaimLeaves(d: Disk, id: string, rec: Record, f: Fault)
    requires id !in d.records && rec.reply == UnknownReply(id)
    ensures var d' := WriteClaim(d, id, rec, f).disk;
            d' == d || (id in d'.records && Unsent(d'.records[id], id) && d' == d.(records := d.records[id := d'.records[id]]))
  {
  }

  /** Whatever becomes of the claim, nothing is dispatched on account of it yet. */
  lemma ClaimKeeps(s: State, cmd: Command, env: Env)
    requires Inv(s) && Early(s.disk, cmd, env).None?
    ensures Inv(s.(disk := WriteClaim(s.disk, cmd.id, ClaimOf(cmd, env.cfg.credential), env.claim).disk))
  {
    var rec := ClaimOf(cmd, env.cfg.credential);
    ClaimLeaves(s.disk, cmd.id, rec, env.claim);
    var d' := WriteClaim(s.disk, cmd.id, rec, env.claim).disk;
    if d' != s.disk {
      AddUnsent(s, cmd.id, d'.records[cmd.id]);
    }
  }

  /** With its claim on disk for good, a command may be dispatched. */
  lemma DispatchKeeps(s: State, e: Sent)
    requires Inv(s) && !Dispatches(s.log, e.cmd.id) && e.cmd.id in s.disk.records
    requires s.disk.records[e.cmd.id] == Settled(Full(ClaimOf(e.cmd, e.credential)))
    ensures Inv(s.(log := s.log + [e])) && Dispatches(s.log + [e], e.cmd.id)
  {
    var log' := s.log + [e];
    assert log'[|s.log|] == e;
    forall i | 0 <= i < |log'| ensures Kept(s.disk, log'[i]) {
      if i < |s.log| {
        assert log'[i] == s.log[i];
        assert Kept(s.disk, s.log[i]);
      }
    }
    forall id | Dispatches(s.log, id) ensures Dispatches(log', id) {
      var i :| 0 <= i < |s.log| && s.log[i].cmd.id == id;
      assert log'[i].cmd.id == id;
    }
    assert OncePerId(log');
  }

  lemma GrowTemps(s: State, id: string, temps: map<string, Entry>)
    requires Inv(s) && Dispatches(s.log, id) && temps.Keys <= s.disk.temps.Keys + {id}
    ensures Inv(s.(disk := s.disk.(temps := temps)))
  {
    var s' := s.(disk := s.disk.(temps := temps));
    forall i | 0 <= i < |s'.log| ensures Kept(s'.disk, s'.log[i]) {
      assert Kept(s.disk, s.log[i]);
    }
  }

  /** Replacing the record of the last dispatched command by another that keeps it. */
  lemma ReplaceLast(s: State, entry: Entry)
    requires Inv(s) && s.log != []
    requires var e := s.log[|s.log| - 1]; e.cmd.id in s.disk.records && Keeps(entry, e)
    ensures Inv(s.(disk := s.disk.(records := s.disk.records[s.log[|s.log| - 1].cmd.id := entry])))
  {
    var e := s.log[|s.log| - 1];
    var d' := s.disk.(records := s.disk.records[e.cmd.id := entry]);
    assert Dispatches(s.log, e.cmd.id);
    forall i | 0 <= i < |s.log| ensures Kept(d', s.log[i]) {
      assert Kept(s.disk, s.log[i]);
    }
  }

  /** However the final write ends, only the command's own files change and its record still keeps it. */
  lemma FinalFrame(d: Disk, e: Sent, f: Fault)
    requires e.cmd.id in d.records && d.records[e.cmd.id] == Settled(Full(ClaimOf(e.cmd, e.credential)))
    ensures var d', id := WriteFinal(d, e.cmd.id, FinalOf(e), f).disk, e.cmd.id;
            && id in d'.records && Keeps(d'.records[id], e) && d'.records == d.records[id := d'.records[id]]
            && d'.temps.Keys <= d.temps.Keys + {id}
  {
  }

  lemma FinalKeeps(s: State, f: Fault)
    requires Inv(s) && s.log != []
    requires var e := s.log[|s.log| - 1];
             e.cmd.id in s.disk.records && s.disk.records[e.cmd.id] == Settled(Full(ClaimOf(e.cmd, e.credential)))
    ensures var e := s.log[|s.log| - 1]; Inv(s.(disk := WriteFinal(s.disk, e.cmd.id, FinalOf(e), f).disk))
  {
    var e := s.log[|s.log| - 1];
    var d' := WriteFinal(s.disk, e.cmd.id, FinalOf(e), f).disk;
    FinalFrame(s.disk, e, f);
    var s1 := s.(disk := s.disk.(records := d'.records));
    ReplaceLast(s, d'.records[e.cmd.id]);
    assert Dispatches(s1.log, e.cmd.id);
    GrowTemps(s1, e.cmd.id, d'.temps);
    assert s1.(disk := s1.disk.(temps := d'.temps)) == s.(disk := d');
  }

  lemma DispatchedKeeps(s: State, cmd: Command, env: Env)
    requires Inv(s) && !Dispatches(s.log, cmd.id) && cmd.id in s.disk.records
    requires s.disk.records[cmd.id] == Settled(Full(ClaimOf(cmd, env.cfg.credential)))
    ensures Inv(Dispatched(s, cmd, env).0)
  {
    var s1 := s.(log := s.log + [SentFor(cmd, env)]);
    DispatchKeeps(s, SentFor(cmd, env));
    FinalKeeps(s1, env.final);
    InvDown(s1);
    InvDown(s1.(disk := WriteFinal(s.disk, cmd.id, FinalOf(SentFor(cmd, env)), env.final).disk));
  }

  lemma InvDown(s: State)
    requires Inv(s)
    ensures Inv(s.(down := true)) && Inv(s.(down := false))
  {
  }

  lemma ClaimDone(d: Disk, id: string, rec: Record, f: Fault)
    requires WriteClaim(d, id, rec, f).outcome == Done
    ensures id !in d.records && WriteClaim(d, id, rec, f).disk == d.(records := d.records[id := Settled(Full(rec))])
  {
  }

  lemma ExecuteKeeps(s: State, cmd: Command, env: Env)
    requires Inv(s)
    ensures Inv(Execute(s, cmd, env).0)
  {
    if Early(s.disk, cmd, env).None? {
      NotYetDispatched(s, cmd.id);
      ClaimKeeps(s, cmd, env);
      var claim := WriteClaim(s.disk, cmd.id, ClaimOf(cmd, env.cfg.credential), env.claim);
      InvDown(s.(disk := claim.disk));
      if claim.outcome == Done {
        ClaimDone(s.disk, cmd.id, ClaimOf(cmd, env.cfg.credential), env.claim);
        DispatchedKeeps(s.(disk := claim.disk), cmd, env);
      }
    }
  }

  /** Whatever a crash leaves behind still holds the record of every dispatched command. */
  lemma RebootKeeps(s: State, left: Disk)
    requires Inv(s) && Survives(s.disk, left)
    ensures Inv(s.(disk := left, down := false))
  {
    assert left.records.Keys <= s.disk.records.Keys;
    SubsetSize(left.records.Keys, s.disk.records.Keys);
    forall i | 0 <= i < |s.log| ensures Kept(left, s.log[i]) {
      assert Kept(s.disk, s.log[i]);
    }
    forall id | id in left.temps ensures Dispatches(s.log, id) {
      assert id in s.disk.records && !Dispatches(s.log, id) ==> Unsent(s.disk.records[id], id);
    }
  }

  /** The state as if nothing had been dispatched before. */
  function Since(s: State, gone: nat): State
    requires gone <= |s.log|
  {
    s.(log := s.log[gone..])
  }

  /** A delivery does not look at what was dispatched before. */
  lemma ExecuteSince(s: State, gone: nat, cmd: Command, env: Env)
    requires gone <= |s.log|
    ensures s.log <= Execute(s, cmd, env).0.log
    ensures Execute(Since(s, gone), cmd, env) == (Since(Execute(s, cmd, env).0, gone), Execute(s, cmd, env).1)
  {
    var e := SentFor(cmd, env);
    assert (s.log + [e])[gone..] == s.log[gone..] + [e];
  }

  lemma StartsClean(s: State)
    ensures Inv(State(NoFiles, [], s.down))
  {
  }

  /**
   * Over every run, the ledger keeps its invariant for everything dispatched since
   * a crash last took its directory away, which is everything if none can.
   */
  lemma {:induction false} InvHolds(rooted: bool, events: seq<Event>) returns (gone: nat)
    requires After(rooted, events).Some?
    ensures gone <= |After(rooted, events).value.log| && Inv(Since(After(rooted, events).value, gone)) && (rooted ==> gone == 0)
  {
    if events == [] {
      gone := 0;
      StartsClean(NewState);
    } else {
      gone := InvHolds(rooted, events[..|events| - 1]);
      var s := After(rooted, events[..|events| - 1]).value;
      match events[|events| - 1]
      case Deliver(cmd, env) =>
        ExecuteSince(s, gone, cmd, env);
        ExecuteKeeps(Since(s, gone), cmd, env);
      case Reboot(left) =>
        if Survives(s.disk, left) {
          RebootKeeps(Since(s, gone), left);
        } else {
          gone := |s.log|;
          StartsClean(s.(down := false));
        }
    }
  }

  // ---------------------------------------------------------------------
  // What it means for callers
  // ---------------------------------------------------------------------

  function IdsOf(log: seq<Sent>): set<string> {
    set i | 0 <= i < |log| :: log[i].cmd.id
  }

  lemma {:induction false} DistinctIds(log: seq<Sent>)
    requires OncePerId(log)
    ensures |IdsOf(log)| == |log|
  {
    if log != [] {
      var init, e := log[..|log| - 1], log[|log| - 1];
      DistinctIds(init);
      assert IdsOf(log) == IdsOf(init) + {e.cmd.id} by {
        assert forall i :: 0 <= i < |init| ==> init[i] == log[i];
      }
      assert e.cmd.id !in IdsOf(init);
    }
  }

  lemma InvOnce(s: State)
    requires Inv(s)
    ensures forall i, j :: 0 <= i < |s.log| && 0 <= j < |s.log| && s.log[i].cmd.id == s.log[j].cmd.id ==> i == j
    ensures |s.log| <= MAX_ENTRIES
  {
    DistinctIds(s.log);
    forall id | id in IdsOf(s.log) ensures id in s.disk.records {
      var i :| 0 <= i < |s.log| && s.log[i].cmd.id == id;
      assert Kept(s.disk, s.log[i]);
    }
    SubsetSize(IdsOf(s.log), s.disk.records.Keys);
    assert |s.disk.records| == |s.disk.records.Keys|;
  }

  /**
   * Over every run of a ledger whose directory was on disk for good before the
   * first command, an id is dispatched at most once, and there are at most 10000
   * dispatches.
   */
  lemma AtMostOnce(events: seq<Event>)
    requires After(true, events).Some?
    ensures var log := After(true, events).value.log;
            (forall i, j :: 0 <= i < |log| && 0 <= j < |log| && log[i].cmd.id == log[j].cmd.id ==> i == j) && |log| <= MAX_ENTRIES
  {
    var gone := InvHolds(true, events);
    var s := After(true, events).value;
    assert s.log[0..] == s.log;
    InvOnce(Since(s, gone));
  }

  lemma AfterSnoc(rooted: bool, events: seq<Event>, s: State, e: Event)
    requires After(rooted, events) == Some(s) && Enabled(rooted, s, e)
    ensures After(rooted, events + [e]) == Some(Next(s, e))
  {
    assert (events + [e])[..|events|] == events;
  }

  lemma DispatchesFirst(s: State, cmd: Command, env: Env)
    requires s.disk == NoFiles && !s.down && Early(NoFiles, cmd, env).None?
    requires env.claim == NoFault && env.ending != Cut && !env.final.DieAt?
    ensures Next(s, Deliver(cmd, env)).log == s.log + [SentFor(cmd, env)] && !Next(s, Deliver(cmd, env)).down
  {
    Dispatching(s, cmd, env);
  }

  /** The command is dispatched, a crash takes the directory away, and a second delivery dispatches it again. */
  lemma LostDirectoryRepeats(cmd: Command, env: Env)
    requires Early(NoFiles, cmd, env).None? && env.claim == NoFault && env.ending != Cut && !env.final.DieAt?
    ensures var events := [Deliver(cmd, env), Reboot(NoFiles), Deliver(cmd, env)];
            After(false, events).Some? && After(false, events).value.log == [SentFor(cmd, env), SentFor(cmd, env)]
  {
    var deliver, lose := Deliver(cmd, env), Reboot(NoFiles);
    var s1 := Next(NewState, deliver);
    DispatchesFirst(NewState, cmd, env);
    AfterSnoc(false, [], NewState, deliver);
    AfterSnoc(false, [deliver], s1, lose);
    var s2 := Next(s1, lose);
    DispatchesFirst(s2, cmd, env);
    AfterSnoc(false, [deliver, lose], s2, deliver);
    assert [] + [deliver] == [deliver] && [deliver] + [lose] == [deliver, lose];
    assert [deliver, lose] + [deliver] == [deliver, lose, deliver];
  }

  /** No run dispatches an id twice if and only if the directory was on disk for good before the first command. */
  lemma OnceIffRooted(rooted: bool, cmd: Command, env: Env)
    requires Early(NoFiles, cmd, env).None? && env.claim == NoFault && env.ending != Cut && !env.final.DieAt?
    ensures (forall events :: After(rooted, events).Some? ==> OncePerId(After(rooted, events).value.log)) <==> rooted
  {
    if rooted {
      forall events | After(rooted, events).Some? ensures OncePerId(After(rooted, events).value.log) {
        AtMostOnce(events);
      }
    } else {
      LostDirectoryRepeats(cmd, env);
      var events := [Deliver(cmd, env), Reboot(NoFiles), Deliver(cmd, env)];
      var log := After(rooted, events).value.log;
      assert log[0].cmd.id == log[1].cmd.id;
    }
  }

  /** Nothing is ever taken out of the log, and each delivery adds at most its own call. */
  lemma LogGrows(s: State, cmd: Command, env: Env)
    ensures Execute(s, cmd, env).0.log == s.log || Execute(s, cmd, env).0.log == s.log + [SentFor(cmd, env)]
  {
  }

  /** A command is dispatched only in its time and only with its claim on disk for good. */
  lemma DispatchNeeds(s: State, cmd: Command, env: Env)
    requires Inv(s) && Execute(s, cmd, env).0.log != s.log
    ensures env.now <= cmd.expiresAt <= env.nowAgain + MAX_AHEAD && cmd.id !in s.disk.records
    ensures cmd.organization == env.cfg.organization && cmd.installation == env.cfg.installation
    ensures Kept(Execute(s, cmd, env).0.disk, SentFor(cmd, env))
  {
    ExecuteKeeps(s, cmd, env);
    LogGrows(s, cmd, env);
    var s' := Execute(s, cmd, env).0;
    assert s'.log[|s.log|] == SentFor(cmd, env);
  }

  /** A command is dispatched only to a handler that there is, with a ledger to claim it in. */
  lemma DispatchHasHandler(s: State, cmd: Command, env: Env)
    requires Execute(s, cmd, env).0.log != s.log
    ensures env.cfg.hasPath && CallFor(cmd).target in env.cfg.targets && WellFormed(cmd)
    ensures CallFor(cmd).target == if cmd.action == "approve" then Approver else if cmd.action == "instruct" then Instructor else Responder
  {
  }

  /** What a dispatched command is answered with is exactly how its dispatch ended. */
  lemma RepliesIff(s: State, cmd: Command, env: Env)
    requires Execute(s, cmd, env).0.log != s.log && Execute(s, cmd, env).1.Some?
    ensures var r := Execute(s, cmd, env).1.value;
            && r.id == cmd.id
            && (r.status == Accepted <==> env.ending == Succeeded) && (r.code == NoCode <==> env.ending == Succeeded)
            && (r.code == WriterConflict <==> env.ending == Conflict)
            && (r.code == PendingRequestMismatch <==> env.ending == Mismatch)
            && (r.code == SessionUnavailable <==> env.ending == NoSession)
            && (r.code == Unsupported <==> env.ending == NotSupported)
            && (r.status == Unknown <==> env.ending == OtherError) && (r.code == DeliveryUnknown <==> env.ending == OtherError)
  {
    LogGrows(s, cmd, env);
  }

  /** A record of the command that can be read, if there is one. */
  ghost predicate Recorded(d: Disk, id: string) {
    id in d.records && d.records[id].now.Full?
  }

  /** What is asked of a command before it is dispatched, in order, and what it is refused with. */
  ghost function Checks(d: Disk, cmd: Command, env: Env): seq<(bool, Code)> {
    var known := Recorded(d, cmd.id);
    [ (WellFormed(cmd), InvalidCommand),
      (cmd.organization == env.cfg.organization && cmd.installation == env.cfg.installation, WrongInstallation),
      (CallFor(cmd).target in env.cfg.targets && env.cfg.hasPath, Unsupported),
      (!env.readFault && (cmd.id in d.records ==> known), LedgerUnavailable),
      (known ==> d.records[cmd.id].now.rec.fingerprint == Mac(env.cfg.credential, cmd), IdempotencyConflict),
      (known || env.now <= cmd.expiresAt <= env.nowAgain + MAX_AHEAD, Expired),
      (known || env.mkdirOk, LedgerUnavailable),
      (known || (env.listOk && |d.records| + |d.temps| < MAX_ENTRIES), LedgerFull),
      (known || env.claim == NoFault || env.claim.op == Rename, LedgerUnavailable) ]
  }

  /** The first check that fails. */
  ghost predicate FailsFirst(checks: seq<(bool, Code)>, i: nat) {
    i < |checks| && !checks[i].0 && forall j :: 0 <= j < i ==> checks[j].0
  }

  lemma ClaimOutcome(d: Disk, id: string, rec: Record, f: Fault)
    requires id !in d.records
    ensures WriteClaim(d, id, rec, f).outcome ==
              if f == NoFault || f.op == Rename then Done else if f.FailAt? then Failed else Died
  {
    assert f != NoFault ==> f.op.Open? || f.op.Write? || f.op.Sync? || f.op.Close? || f.op.Rename? || f.op.SyncDir?;
  }

  /**
   * Every delivery, over the checks alone: the first that fails refuses the command
   * with its code, unless the process dies in the claim; if none fails, the command
   * is answered by its record if there is one, and is dispatched if there is none.
   */
  lemma FirstFailureDecides(s: State, cmd: Command, env: Env)
    ensures forall i: nat :: FailsFirst(Checks(s.disk, cmd, env), i) ==>
              && Execute(s, cmd, env).0.log == s.log
              && (Execute(s, cmd, env).1 == Some(Refusal(cmd, Checks(s.disk, cmd, env)[i].1))
                  || (i == 8 && env.claim.DieAt? && Execute(s, cmd, env).1 == None))
    ensures (forall i :: 0 <= i < |Checks(s.disk, cmd, env)| ==> Checks(s.disk, cmd, env)[i].0) ==>
              if Recorded(s.disk, cmd.id) then Execute(s, cmd, env) == (s, Some(s.disk.records[cmd.id].now.rec.reply))
              else Execute(s, cmd, env).0.log == s.log + [SentFor(cmd, env)]
  {
    var checks := Checks(s.disk, cmd, env);
    if Early(s.disk, cmd, env).None? {
      ClaimOutcome(s.disk, cmd.id, ClaimOf(cmd, env.cfg.credential), env.claim);
      NoneEarly(s.disk, cmd, env);
      if checks[8].0 {
        assert WriteClaim(s.disk, cmd.id, ClaimOf(cmd, env.cfg.credential), env.claim).outcome == Done;
      } else {
        assert FailsFirst(checks, 8);
        forall i: nat | FailsFirst(checks, i) ensures i == 8 {
          FirstIsOne(checks, i, 8);
        }
      }
    } else {
      EarlyMeans(s.disk, cmd, env);
      forall i: nat | FailsFirst(checks, i) ensures Early(s.disk, cmd, env).value == Refusal(cmd, checks[i].1) {
        var j: nat :| FailsFirst(checks, j) && j < 8 && Early(s.disk, cmd, env).value == Refusal(cmd, checks[j].1);
        FirstIsOne(checks, i, j);
      }
    }
  }

  lemma NoneEarly(d: Disk, cmd: Command, env: Env)
    requires Early(d, cmd, env).None?
    ensures |Checks(d, cmd, env)| == 9 && cmd.id !in d.records && forall i :: 0 <= i < 8 ==> Checks(d, cmd, env)[i].0
  {
  }

  /** An early answer is the record, or the refusal of the first check that fails. */
  lemma EarlyMeans(d: Disk, cmd: Command, env: Env)
    requires Early(d, cmd, env).Some?
    ensures var checks, r := Checks(d, cmd, env), Early(d, cmd, env).value;
            || (Recorded(d, cmd.id) && r == d.records[cmd.id].now.rec.reply && forall i :: 0 <= i < |checks| ==> checks[i].0)
            || exists i: nat :: FailsFirst(checks, i) && i < 8 && r == Refusal(cmd, checks[i].1)
  {
    var checks := Checks(d, cmd, env);
    if !checks[0].0 {
      assert FailsFirst(checks, 0);
    } else if !checks[1].0 {
      assert FailsFirst(checks, 1);
    } else if !checks[2].0 {
      assert FailsFirst(checks, 2);
    } else if !checks[3].0 {
      assert FailsFirst(checks, 3);
    } else if !checks[4].0 {
      assert FailsFirst(checks, 4);
    } else if !checks[5].0 {
      assert FailsFirst(checks, 5);
    } else if !checks[6].0 {
      assert FailsFirst(checks, 6);
    } else if !checks[7].0 {
      assert FailsFirst(checks, 7);
    }
  }

  lemma FirstIsOne(checks: seq<(bool, Code)>, i: nat, j: nat)
    requires FailsFirst(checks, i) && FailsFirst(checks, j)
    ensures i == j
  {
  }

  /**
   * Once a command id has been dispatched, no delivery under that id changes
   * anything, and the reply is the recorded one, "unknown", a conflict if the
   * command or the credential differs, or a refusal that does not depend on the record.
   */
  lemma ReplayIsFaithful(s: State, i: nat, cmd: Command, env: Env)
    requires Inv(s) && i < |s.log| && s.log[i].cmd.id == cmd.id
    ensures var e, (s', reply) := s.log[i], Execute(s, cmd, env);
            && s' == s && reply.Some?
            && (if Screen(cmd, env.cfg).Some? then reply.value == Refusal(cmd, Screen(cmd, env.cfg).value)
                else if env.readFault then reply.value == Refusal(cmd, LedgerUnavailable)
                else if cmd == e.cmd && env.cfg.credential == e.credential then
                  reply.value == ReplyFor(cmd.id, e.ending) || reply.value == UnknownReply(cmd.id)
                else reply.value == Refusal(cmd, IdempotencyConflict))
  {
    assert Kept(s.disk, s.log[i]);
  }

  /** A reply of "accepted" means that this very command was dispatched and succeeded, whatever crashes take away. */
  lemma AcceptedMeansSucceeded(rooted: bool, events: seq<Event>, cmd: Command, env: Env)
    requires After(rooted, events).Some?
    requires Execute(After(rooted, events).value, cmd, env).1.Some?
    requires Execute(After(rooted, events).value, cmd, env).1.value.status == Accepted
    ensures Sent(cmd, env.cfg.credential, CallFor(cmd), Succeeded) in Execute(After(rooted, events).value, cmd, env).0.log
  {
    var gone := InvHolds(rooted, events);
    OnlyProperCalls(rooted, events);
    var s := After(rooted, events).value;
    ExecuteSince(s, gone, cmd, env);
    if Early(s.disk, cmd, env).Some? {
      AcceptedReplay(Since(s, gone), cmd, env);
    } else {
      AcceptedNow(s, cmd, env);
    }
  }

  lemma AcceptedNow(s: State, cmd: Command, env: Env)
    requires Early(s.disk, cmd, env).None?
    requires Execute(s, cmd, env).1.Some? && Execute(s, cmd, env).1.value.status == Accepted
    ensures Sent(cmd, env.cfg.credential, CallFor(cmd), Succeeded) in Execute(s, cmd, env).0.log
  {
    var log' := Execute(s, cmd, env).0.log;
    assert log' == s.log + [SentFor(cmd, env)] && env.ending == Succeeded;
    assert log'[|s.log|] == SentFor(cmd, env);
  }

  /** An early "accepted" can only come from a record of this command under this credential. */
  lemma AcceptedRecord(d: Disk, cmd: Command, env: Env)
    requires Early(d, cmd, env).Some? && Early(d, cmd, env).value.status == Accepted
    ensures cmd.id in d.records && d.records[cmd.id].now.Full?
    ensures var rec := d.records[cmd.id].now.rec; rec.fingerprint == Mac(env.cfg.credential, cmd) && rec.reply.status == Accepted
  {
  }

  lemma AcceptedMine(c: Content, e: Sent, cmd: Command, credential: string)
    requires Mine(c, e) && c.rec.reply.status == Accepted && c.rec.fingerprint == Mac(credential, cmd)
    ensures e.cmd == cmd && e.credential == credential && e.ending == Succeeded
  {
  }

  lemma AcceptedReplay(s: State, cmd: Command, env: Env)
    requires Inv(s) && Early(s.disk, cmd, env).Some? && Early(s.disk, cmd, env).value.status == Accepted
    requires forall i :: 0 <= i < |s.log| ==> s.log[i].call == CallFor(s.log[i].cmd)
    ensures Sent(cmd, env.cfg.credential, CallFor(cmd), Succeeded) in s.log
  {
    AcceptedRecord(s.disk, cmd, env);
    var entry := s.disk.records[cmd.id];
    assert !Unsent(entry, cmd.id);
    var i :| 0 <= i < |s.log| && s.log[i].cmd.id == cmd.id;
    assert Kept(s.disk, s.log[i]);
    AcceptedMine(entry.now, s.log[i], cmd, env.cfg.credential);
    assert s.log[i] == Sent(cmd, env.cfg.credential, CallFor(cmd), Succeeded);
  }

  /** The call is the one the action names, with the decision of an approval and the text of anything else. */
  predicate Proper(e: Sent) {
    && WellFormed(e.cmd) && e.call == CallFor(e.cmd)
    && (if e.cmd.action == "approve" then e.call.value in {"accept", "cancel"} else ValidResponse(e.call.value))
    && (e.call.target == Instructor <==> e.call.pendingId == "") && (e.call.target == Approver <==> e.cmd.action == "approve")
    && e.call.session == e.cmd.session && e.call.pendingId == e.cmd.pendingId
  }

  lemma ProperCall(cmd: Command, credential: string, ending: Ending)
    requires WellFormed(cmd)
    ensures Proper(Sent(cmd, credential, CallFor(cmd), ending))
  {
  }

  /** Over every run, only well-formed commands reach a session, through the handler of their action. */
  lemma {:induction false} OnlyProperCalls(rooted: bool, events: seq<Event>)
    requires After(rooted, events).Some?
    ensures forall i :: 0 <= i < |After(rooted, events).value.log| ==> Proper(After(rooted, events).value.log[i])
  {
    if events != [] {
      OnlyProperCalls(rooted, events[..|events| - 1]);
      var s := After(rooted, events[..|events| - 1]).value;
      if events[|events| - 1].Deliver? {
        var cmd, env := events[|events| - 1].cmd, events[|events| - 1].env;
        LogGrows(s, cmd, env);
        if Execute(s, cmd, env).0.log != s.log {
          ProperCall(cmd, env.cfg.credential, env.ending);
        }
      }
    }
  }

  /** What the final write leaves in place of a settled claim. */
  function FinalEntry(claim: Record, final: Record, f: Fault): Entry {
    if f == NoFault then Settled(Full(final))
    else if Hits(f, SyncDir) then Swapped(Full(claim), Full(final))
    else Settled(Full(claim))
  }

  lemma FinalLeaves(d: Disk, id: string, claim: Record, final: Record, f: Fault)
    requires id in d.records && d.records[id] == Settled(Full(claim)) && id !in d.temps
    ensures var d' := WriteFinal(d, id, final, f).disk; id in d'.records && d'.records[id] == FinalEntry(claim, final, f)
  {
    assert f != NoFault ==> f.op.Open? || f.op.Write? || f.op.Sync? || f.op.Close? || f.op.Rename? || f.op.SyncDir?;
  }

  /** Without a fault in the claim, a delivery that is not answered early is dispatched. */
  lemma Dispatching(s: State, cmd: Command, env: Env)
    requires Early(s.disk, cmd, env).None? && env.claim == NoFault
    ensures Execute(s, cmd, env)
         == Dispatched(s.(disk := s.disk.(records := s.disk.records[cmd.id := Settled(Full(ClaimOf(cmd, env.cfg.credential)))])), cmd, env)
    ensures Screen(cmd, env.cfg).None? && cmd.id !in s.disk.records
  {
  }

  /** What a dispatching delivery leaves in the command's record. */
  lemma RecordAfter(s: State, cmd: Command, env: Env)
    requires Inv(s) && Early(s.disk, cmd, env).None? && env.claim == NoFault && env.ending != Cut && !env.final.DieAt?
    ensures Execute(s, cmd, env).1 == Some(ReplyFor(cmd.id, env.ending))
    ensures var d, e := Execute(s, cmd, env).0.disk, SentFor(cmd, env);
            cmd.id in d.records && d.records[cmd.id] == FinalEntry(ClaimOf(cmd, e.credential), FinalOf(e), env.final)
  {
    Dispatching(s, cmd, env);
    NotYetDispatched(s, cmd.id);
    assert cmd.id !in s.disk.temps;
    var claim := ClaimOf(cmd, env.cfg.credential);
    FinalLeaves(s.disk.(records := s.disk.records[cmd.id := Settled(Full(claim))]), cmd.id, claim, FinalOf(SentFor(cmd, env)), env.final);
  }

  /** A readable record of the command answers it. */
  lemma RecordAnswers(s: State, cmd: Command, env: Env, rec: Record)
    requires Screen(cmd, env.cfg).None? && !env.readFault && rec.fingerprint == FingerprintOf(cmd, env.cfg)
    requires cmd.id in s.disk.records && s.disk.records[cmd.id].now == Full(rec)
    ensures Execute(s, cmd, env) == (s, Some(rec.reply))
  {
  }

  /** A second delivery in the same process repeats the reply exactly when the final write got as far as the rename. */
  lemma RepeatsIff(s: State, cmd: Command, env: Env, again: Env)
    requires Inv(s) && Early(s.disk, cmd, env).None? && env.claim == NoFault
    requires env.ending != Cut && env.ending != OtherError && !env.final.DieAt?
    requires again.cfg == env.cfg && !again.readFault
    ensures var first := Execute(s, cmd, env);
            Execute(first.0, cmd, again).1 == first.1 <==> env.final == NoFault || env.final == FailAt(SyncDir)
  {
    RecordAfter(s, cmd, env);
    Dispatching(s, cmd, env);
    var s' := Execute(s, cmd, env).0;
    RecordAnswers(s', cmd, again, s'.disk.records[cmd.id].now.rec);
  }

  /** The disk a crash leaves when no unsynced change reached it. */
  function Reverted(d: Disk): Disk {
    Disk(map id | id in d.records && !d.records[id].Fresh? ::
           Settled(if d.records[id].Swapped? then d.records[id].before else d.records[id].now),
         map[])
  }

  /** A delivery after any crash and restart repeats the reply exactly when the final write completed. */
  lemma SurvivesIff(s: State, cmd: Command, env: Env, again: Env)
    requires Inv(s) && Early(s.disk, cmd, env).None? && env.claim == NoFault
    requires env.ending != Cut && env.ending != OtherError && !env.final.DieAt?
    requires again.cfg == env.cfg && !again.readFault
    ensures var first := Execute(s, cmd, env);
            (forall left :: Survives(first.0.disk, left) ==> Execute(first.0.(disk := left), cmd, again).1 == first.1)
            <==> env.final == NoFault
  {
    RecordAfter(s, cmd, env);
    Dispatching(s, cmd, env);
    AfterCrashIff(Execute(s, cmd, env).0, cmd, env, again);
  }

  lemma AfterCrashIff(s: State, cmd: Command, env: Env, again: Env)
    requires Screen(cmd, env.cfg).None? && again.cfg == env.cfg && !again.readFault
    requires env.ending != Cut && env.ending != OtherError && !env.final.DieAt?
    requires cmd.id in s.disk.records
    requires s.disk.records[cmd.id] == FinalEntry(ClaimOf(cmd, env.cfg.credential), FinalOf(SentFor(cmd, env)), env.final)
    ensures (forall left :: Survives(s.disk, left) ==> Execute(s.(disk := left), cmd, again).1 == Some(ReplyFor(cmd.id, env.ending)))
            <==> env.final == NoFault
  {
    if env.final == NoFault {
      forall left | Survives(s.disk, left) ensures Execute(s.(disk := left), cmd, again).1 == Some(ReplyFor(cmd.id, env.ending)) {
        RecordAnswers(s.(disk := left), cmd, again, FinalOf(SentFor(cmd, env)));
      }
    } else {
      var left := Reverted(s.disk);
      assert Survives(s.disk, left);
      RecordAnswers(s.(disk := left), cmd, again, ClaimOf(cmd, env.cfg.credential));
    }
  }

  // ---------------------------------------------------------------------
  // The running ledger
  // ---------------------------------------------------------------------

  lemma Overwrites(m: map<string, Entry>, id: string, a: Entry, b: Entry)
    ensures m[id := a][id := b] == m[id := b]
    ensures id !in m ==> m[id := a] - {id} == m
  {
  }

  class CommandLedger {
    var records: map<string, Entry>
    var temps: map<string, Entry>
    ghost var log: seq<Sent>
    ghost var down: bool

    constructor ()
      ensures Value() == NewState
    {
      records, temps, log, down := map[], map[], [], false;
    }

    ghost function Value(): State
      reads this
    {
      State(Disk(records, temps), log, down)
    }

    method WriteCommandRecord(id: string, rec: Record, claim: bool, fault: Fault) returns (outcome: Outcome)
      modifies this`records, this`temps
      ensures var w := if claim then WriteClaim(old(Value().disk), id, rec, fault) else WriteFinal(old(Value().disk), id, rec, fault);
              Value().disk == w.disk && outcome == w.outcome
    {
      ghost var d := Value().disk;
      if Hits(fault, Open) { return Stopped(fault); }
      if id in (if claim then records else temps) { return Failed; }
      var file := Torn;
      if !Hits(fault, Write) { file := Full(rec); }
      if claim { records := records[id := Fresh(file)]; } else { temps := temps[id := Fresh(file)]; }
      if Hits(fault, Write) || Hits(fault, Sync) || Hits(fault, Close) { return Stopped(fault); }
      Overwrites(if claim then d.records else d.temps, id, Fresh(file), Settled(file));
      if !claim {
        if Hits(fault, Rename) { return Stopped(fault); }
        temps := temps - {id};
        ghost var swapped := if id in records then Swapped(records[id].now, file) else Fresh(file);
        Overwrites(d.records, id, swapped, Settled(file));
        records := records[id := if id in records then Swapped(records[id].now, file) else Fresh(file)];
      }
      if Hits(fault, SyncDir) { return Stopped(fault); }
      records := records[id := Settled(file)];
      outcome := Done;
    }

    method ExecuteCommand(cmd: Command, env: Env) returns (reply: Option<Reply>)
      requires !down
      modifies this
      ensures (Value(), reply) == Execute(old(Value()), cmd, env)
    {
      if !WellFormed(cmd) { return Some(Refusal(cmd, InvalidCommand)); }
      if cmd.organization != env.cfg.organization || cmd.installation != env.cfg.installation {
        return Some(Refusal(cmd, WrongInstallation));
      }
      var target, value := Responder, cmd.text;
      if cmd.action == "instruct" { target := Instructor; }
      if cmd.action == "approve" { target, value := Approver, cmd.decision; }
      if target !in env.cfg.targets || !env.cfg.hasPath { return Some(Refusal(cmd, Unsupported)); }
      var fingerprint := FingerprintOf(cmd, env.cfg);
      if env.readFault { return Some(Refusal(cmd, LedgerUnavailable)); }
      if cmd.id in records {
        if records[cmd.id].now.Torn? { return Some(Refusal(cmd, LedgerUnavailable)); }
        var previous := records[cmd.id].now.rec;
        if previous.fingerprint != fingerprint { return Some(Refusal(cmd, IdempotencyConflict)); }
        return Some(previous.reply);
      }
      if env.now > cmd.expiresAt || cmd.expiresAt > env.nowAgain + MAX_AHEAD { return Some(Refusal(cmd, Expired)); }
      if !env.mkdirOk { return Some(Refusal(cmd, LedgerUnavailable)); }
      if !env.listOk || |records| + |temps| >= MAX_ENTRIES { return Some(Refusal(cmd, LedgerFull)); }
      reply := ClaimAndDispatch(cmd, env, Call(target, cmd.session, cmd.pendingId, value));
    }

    method ClaimAndDispatch(cmd: Command, env: Env, call: Call) returns (reply: Option<Reply>)
      requires !down && Early(Value().disk, cmd, env).None? && call == CallFor(cmd)
      modifies this
      ensures (Value(), reply) == Execute(old(Value()), cmd, env)
    {
      var fingerprint := FingerprintOf(cmd, env.cfg);
      var outcome := WriteCommandRecord(cmd.id, Record(fingerprint, UnknownReply(cmd.id)), true, env.claim);
      if outcome == Died { down := true; return None; }
      if outcome == Failed { return Some(Refusal(cmd, LedgerUnavailable)); }
      log := log + [Sent(cmd, env.cfg.credential, call, env.ending)];
      if env.ending == Cut { down := true; return None; }
      var result := Refusal(cmd, InvalidCommand);
      match env.ending {
        case Succeeded => result := result.(status := Accepted, code := NoCode);
        case Conflict => result := result.(code := WriterConflict);
        case Mismatch => result := result.(code := PendingRequestMismatch);
        case NoSession => result := result.(code := SessionUnavailable);
        case NotSupported => result := result.(code := Unsupported);
        case _ => result := UnknownReply(cmd.id);
      }
      outcome := WriteCommandRecord(cmd.id, Record(fingerprint, result), false, env.final);
      if outcome == Died { down := true; return None; }
      reply := Some(result);
    }
  }
}
