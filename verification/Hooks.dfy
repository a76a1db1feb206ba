/** The Claude hook tracker: one session's pending requests, from interleaved hook events. */
module Hooks {
  import opened Common
  import I = Interaction

  datatype Name =
    | SessionStart | UserPromptSubmit | PreToolUse | PermissionRequest | PostToolUse | PostToolUseFailure
    | Elicitation | ElicitationResult | Stop | StopFailure | SubagentStop | SessionEnd | Notification | OtherName

  datatype Event = Event(name: Name, session: string, prompt: string, agent: string, tool: string, toolId: string,
                         toolKey: string, server: string, elicitation: string, source: string, notification: string)

  datatype Pending = Pending(request: I.PendingRequest, agent: string)

  /** What the session is doing when nothing is pending. */
  datatype Base = Unset | Idle | Working | Unknown

  function Text(base: Base): string {
    match base
    case Unset => ""
    case Idle => "idle"
    case Working => "working"
    case Unknown => "unknown"
  }

  datatype State = State(session: string, prompt: string, base: Base, pending: map<string, Pending>, tools: map<string, string>)

  const NewState := State("", "", Unset, map[], map[])

  // ---------------------------------------------------------------------
  // Keys
  // ---------------------------------------------------------------------

  /** Where the tool id of a call is remembered for events that omit it. */
  function Slot(agent: string, tool: string, toolKey: string): string {
    agent + "/" + tool + "/" + toolKey
  }

  /** Where the request of a tool call is kept. */
  function ToolEntry(agent: string, id: string): string {
    agent + "/tool/" + id
  }

  function ElicitationEntry(e: Event): string {
    e.agent + "/elicitation/" + e.server + "/" + e.elicitation
  }

  function ToolIdOf(tools: map<string, string>, e: Event): string {
    var slot := Slot(e.agent, e.tool, e.toolKey);
    if e.toolId != "" then e.toolId
    else if slot in tools && tools[slot] != "" then tools[slot]
    else e.tool
  }

  function KindFor(tool: string): I.PendingKind {
    if tool == "Bash" then I.Command
    else if tool in {"Edit", "Write", "MultiEdit", "NotebookEdit"} then I.FileChange
    else if tool == "AskUserQuestion" then I.Question
    else if tool == "" then I.Other
    else I.Tool
  }

  function TypeFor(tool: string): I.PendingType {
    if tool == "AskUserQuestion" then I.Input else I.Approval
  }

  // ---------------------------------------------------------------------
  // One event
  // ---------------------------------------------------------------------

  /** A new request unless one of the same type is already there; `newId` is its new id. */
  function Add(pending: map<string, Pending>, key: string, ptype: I.PendingType, kind: I.PendingKind, agent: string, newId: string)
    : map<string, Pending>
  {
    if key in pending && pending[key].request.ptype == ptype then pending
    else pending[key := Pending(I.PendingRequest(newId, ptype, "", kind), agent)]
  }

  function WithoutAgent(pending: map<string, Pending>, agent: string): map<string, Pending> {
    map key | key in pending && pending[key].agent != agent :: pending[key]
  }

  predicate IsPost(e: Event) {
    e.name == PostToolUse || e.name == PostToolUseFailure
  }

  predicate IsStop(e: Event) {
    e.name == Stop || e.name == StopFailure || e.name == SubagentStop
  }

  /** The event by its name, once session and prompt match; the flag is whether an update goes out. */
  function Handle(s: State, e: Event, newId: string): (State, bool) {
    var key := ToolEntry(e.agent, ToolIdOf(s.tools, e));
    if e.name == UserPromptSubmit then
      if e.agent != "" then (s, false) else (s.(pending := map[], tools := map[], base := Working), true)
    else if e.name == PreToolUse then
      (s.(base := Working,
          pending := if e.tool == "AskUserQuestion" then Add(s.pending, key, I.Input, I.Question, e.agent, newId) else s.pending), true)
    else if e.name == PermissionRequest then
      (s.(pending := Add(s.pending, key, TypeFor(e.tool), KindFor(e.tool), e.agent, newId)), true)
    else if IsPost(e) then
      (s.(pending := s.pending - {key}, tools := s.tools - {Slot(e.agent, e.tool, e.toolKey)}, base := Working), true)
    else if e.name == Elicitation then
      (s.(pending := Add(s.pending, ElicitationEntry(e), I.Input, I.Question, e.agent, newId)), true)
    else if e.name == ElicitationResult then
      (s.(pending := s.pending - {ElicitationEntry(e)}, base := Working), true)
    else if IsStop(e) then
      (s.(pending := WithoutAgent(s.pending, e.agent),
          base := if e.agent != "" then s.base else if e.name == StopFailure then Unknown else Idle), true)
    else if e.name == SessionEnd then
      if e.agent != "" then (s, false) else (s.(pending := map[], tools := map[], base := Unknown), true)
    else if e.name == Notification then
      if e.notification != "idle_prompt" || e.agent != "" then (s, false) else (s.(base := Idle), true)
    else (s, false)
  }

  /** The session is taken from the first event, the prompt from the last submitted one. */
  function Tuned(s: State, e: Event): State {
    var s1 := if s.session == "" then s.(session := e.session) else s;
    if s1.session == e.session && e.name == UserPromptSubmit && e.agent == "" then s1.(prompt := e.prompt) else s1
  }

  predicate Concerns(s: State, e: Event) {
    s.session == e.session && (e.prompt == "" || s.prompt == "" || e.prompt == s.prompt)
  }

  function Remembered(s: State, e: Event): State {
    if e.toolId != "" then s.(tools := s.tools[Slot(e.agent, e.tool, e.toolKey) := e.toolId]) else s
  }

  function Apply(s: State, e: Event, newId: string): (State, bool) {
    if e.name == SessionStart && e.agent == "" then
      (if s.session != e.session || e.source != "compact" then State(e.session, "", Idle, map[], map[]) else s, true)
    else if !Concerns(Tuned(s, e), e) then (Tuned(s, e), false)
    else Handle(Remembered(Tuned(s, e), e), e, newId)
  }

  // ---------------------------------------------------------------------
  // What goes out
  // ---------------------------------------------------------------------

  function Codes(s: string): seq<int> {
    seq(|s|, i requires 0 <= i < |s| => s[i] as int)
  }

  predicate Before(a: string, b: string) {
    Less(Codes(a), Codes(b))
  }

  lemma BeforeTotal(a: string, b: string)
    ensures !Before(a, a) && !(Before(a, b) && Before(b, a)) && (a == b || Before(a, b) || Before(b, a))
  {
    LessTotal(Codes(a), Codes(b));
    if Codes(a) == Codes(b) {
      assert forall i :: 0 <= i < |a| ==> a[i] as int == Codes(a)[i] == Codes(b)[i] == b[i] as int;
    }
  }

  lemma BeforeTransitive(a: string, b: string, c: string)
    requires Before(a, b) && Before(b, c)
    ensures Before(a, c)
  {
    LessTransitive(Codes(a), Codes(b), Codes(c));
  }

  predicate IsApproval(p: Pending) {
    p.request.ptype == I.Approval
  }

  /** Approvals come before inputs, and equals go by key. */
  predicate Beats(pending: map<string, Pending>, a: string, b: string)
    requires a in pending && b in pending
  {
    if IsApproval(pending[a]) == IsApproval(pending[b]) then Before(a, b) else IsApproval(pending[a])
  }

  ghost predicate BestOf(pending: map<string, Pending>, keys: set<string>, k: string) {
    && k in keys && keys <= pending.Keys
    && forall j :: j in keys && j != k ==> Beats(pending, k, j)
  }

  ghost predicate Chosen(pending: map<string, Pending>, k: string) {
    BestOf(pending, pending.Keys, k)
  }

  /** One more key seen, in whatever order. */
  lemma BestStep(pending: map<string, Pending>, keys: set<string>, k: string, j: string)
    requires BestOf(pending, keys, k) && j in pending && j !in keys
    ensures BestOf(pending, keys + {j}, if Beats(pending, j, k) then j else k)
  {
    BeforeTotal(j, k);
    if Beats(pending, j, k) {
      forall i | i in keys && i != k ensures Beats(pending, j, i) {
        assert Beats(pending, k, i);
        if Before(j, k) && Before(k, i) {
          BeforeTransitive(j, k, i);
        }
      }
    }
  }

  lemma ChosenOnce(pending: map<string, Pending>, a: string, b: string)
    requires Chosen(pending, a) && Chosen(pending, b)
    ensures a == b
  {
    BeforeTotal(a, b);
  }

  predicate Announces(p: Pending, out: I.Interaction) {
    out.pending == Some(p.request) && out.state == if IsApproval(p) then "waiting_for_approval" else "waiting_for_input"
  }

  /** The interaction sent out for a state. */
  ghost predicate Emits(s: State, out: I.Interaction) {
    && out.source == "claude-hooks" && out.capability == CAPABILITIES
    && if s.pending == map[] then out.state == Text(s.base) && out.pending == None
       else exists k :: Chosen(s.pending, k) && Announces(s.pending[k], out)
  }

  const CAPABILITIES := I.Capability(false, false, true, true, false)

  /** What goes out does not depend on the order in which the map is visited. */
  lemma EmissionIsUnique(s: State, a: I.Interaction, b: I.Interaction)
    requires Emits(s, a) && Emits(s, b)
    ensures a.state == b.state && a.pending == b.pending
  {
    if s.pending != map[] {
      var j :| Chosen(s.pending, j) && Announces(s.pending[j], a);
      var k :| Chosen(s.pending, k) && Announces(s.pending[k], b);
      ChosenOnce(s.pending, j, k);
    }
  }

  ghost predicate SomeApproval(pending: map<string, Pending>) {
    exists k :: k in pending && IsApproval(pending[k])
  }

  /** An update says "waiting" exactly when a request of that kind decides, and otherwise the base state. */
  lemma EmissionMeans(s: State, out: I.Interaction)
    requires Emits(s, out)
    ensures out.state == "waiting_for_approval" <==> SomeApproval(s.pending)
    ensures out.state == "waiting_for_input" <==> s.pending != map[] && !SomeApproval(s.pending)
    ensures out.pending == None <==> s.pending == map[]
    ensures s.pending == map[] ==> out.state == Text(s.base)
    ensures out.pending.Some? ==> (out.pending.value.ptype == I.Approval <==> SomeApproval(s.pending))
  {
    if s.pending != map[] {
      var k :| Chosen(s.pending, k) && Announces(s.pending[k], out);
      assert k in s.pending;
      if j :| j in s.pending && IsApproval(s.pending[j]) {
        assert j == k || Beats(s.pending, k, j);
      }
    }
  }

  /** An event, with the id that a request made by it would get. */
  datatype Stamped = Stamped(event: Event, newId: string)

  function Run(s: State, trace: seq<Stamped>): State {
    if trace == [] then s
    else Apply(Run(s, trace[..|trace| - 1]), trace[|trace| - 1].event, trace[|trace| - 1].newId).0
  }

  // ---------------------------------------------------------------------
  // What every event does
  // ---------------------------------------------------------------------

  /** The main agent starts a session; after a compaction of the session followed, it goes on. */
  predicate Restarts(s: State, e: Event) {
    e.name == SessionStart && e.agent == "" && (e.session != s.session || e.source != "compact")
  }

  predicate IsPrompt(e: Event) {
    e.name == UserPromptSubmit && e.agent == ""
  }

  /** The event is about the session followed and not about an earlier prompt. */
  predicate Counts(s: State, e: Event) {
    && !(e.name == SessionStart && e.agent == "")
    && (s.session == "" || s.session == e.session)
    && (IsPrompt(e) || e.prompt == "" || s.prompt == "" || e.prompt == s.prompt)
  }

  /** Everything pending and everything remembered goes. */
  predicate Wipes(s: State, e: Event) {
    Restarts(s, e) || (Counts(s, e) && e.agent == "" && (e.name == UserPromptSubmit || e.name == SessionEnd))
  }

  /** What the main agent is doing after the event, where the event says so. */
  function Doing(e: Event): Option<Base> {
    match e.name
    case PreToolUse => Some(Working)
    case PostToolUse => Some(Working)
    case PostToolUseFailure => Some(Working)
    case ElicitationResult => Some(Working)
    case UserPromptSubmit => if e.agent == "" then Some(Working) else None
    case Stop => if e.agent == "" then Some(Idle) else None
    case SubagentStop => if e.agent == "" then Some(Idle) else None
    case StopFailure => if e.agent == "" then Some(Unknown) else None
    case SessionEnd => if e.agent == "" then Some(Unknown) else None
    case Notification => if e.agent == "" && e.notification == "idle_prompt" then Some(Idle) else None
    case _ => None
  }

  /** The key under which a tool event is filed. */
  function KeyOf(s: State, e: Event): string {
    ToolEntry(e.agent, ToolIdOf(s.tools, e))
  }

  /** The request an event asks for: its key, type and kind. */
  function Asks(s: State, e: Event): Option<(string, I.PendingType, I.PendingKind)> {
    match e.name
    case PreToolUse => if e.tool == "AskUserQuestion" then Some((KeyOf(s, e), I.Input, I.Question)) else None
    case PermissionRequest => Some((KeyOf(s, e), TypeFor(e.tool), KindFor(e.tool)))
    case Elicitation => Some((ElicitationEntry(e), I.Input, I.Question))
    case _ => None
  }

  /** The event ends a pending request: its own result, or the stop of its agent. */
  predicate Dismisses(s: State, e: Event, key: string)
    requires key in s.pending
  {
    || (IsStop(e) && s.pending[key].agent == e.agent)
    || (IsPost(e) && key == KeyOf(s, e))
    || (e.name == ElicitationResult && key == ElicitationEntry(e))
  }

  /** The event asks for a request that is not there yet. */
  predicate AsksAnew(s: State, e: Event, key: string) {
    && Counts(s, e) && Asks(s, e).Some? && Asks(s, e).value.0 == key
    && (key in s.pending ==> s.pending[key].request.ptype != Asks(s, e).value.1)
  }

  ghost predicate Stays(s: State, e: Event, key: string) {
    key in s.pending && !Wipes(s, e) && !(Counts(s, e) && Dismisses(s, e, key))
  }

  /** An event that counts goes by its name, once session, prompt and tool id are noted. */
  lemma Routed(s: State, e: Event, newId: string) returns (r: State)
    requires Counts(s, e)
    ensures Apply(s, e, newId) == Handle(r, e, newId)
    ensures r == State(e.session, if IsPrompt(e) then e.prompt else s.prompt, s.base, s.pending, r.tools)
    ensures r.tools == if e.toolId != "" then s.tools[Slot(e.agent, e.tool, e.toolKey) := e.toolId] else s.tools
    ensures KeyOf(r, e) == KeyOf(s, e)
  {
    r := Remembered(Tuned(s, e), e);
  }

  lemma NotRouted(s: State, e: Event, newId: string)
    requires !Counts(s, e)
    ensures Apply(s, e, newId) ==
              if Restarts(s, e) then (State(e.session, "", Idle, map[], map[]), true)
              else (s.(session := if s.session == "" then e.session else s.session), e.name == SessionStart && e.agent == "")
  {
  }

  /** The same for an event that goes by its name. */
  lemma PendingHandled(r: State, e: Event, newId: string, key: string)
    ensures var after, wiped := Handle(r, e, newId).0.pending, e.agent == "" && (e.name == UserPromptSubmit || e.name == SessionEnd);
            var asked := Asks(r, e).Some? && Asks(r, e).value.0 == key && (key in r.pending ==> r.pending[key].request.ptype != Asks(r, e).value.1);
            var stays := key in r.pending && !wiped && !Dismisses(r, e, key);
            && (key in after <==> asked || stays)
            && (asked ==> after[key] == Pending(I.PendingRequest(newId, Asks(r, e).value.1, "", Asks(r, e).value.2), e.agent))
            && (stays && !asked ==> after[key] == r.pending[key])
  {
    match e.name
    case PreToolUse => AddMeans(r.pending, KeyOf(r, e), I.Input, I.Question, e.agent, newId, key);
    case PermissionRequest => AddMeans(r.pending, KeyOf(r, e), TypeFor(e.tool), KindFor(e.tool), e.agent, newId, key);
    case Elicitation => AddMeans(r.pending, ElicitationEntry(e), I.Input, I.Question, e.agent, newId, key);
    case _ =>
  }

  /** A request is made only where none of its type is. */
  lemma AddMeans(pending: map<string, Pending>, at: string, ptype: I.PendingType, kind: I.PendingKind, agent: string, newId: string, key: string)
    ensures var after := Add(pending, at, ptype, kind, agent, newId);
            var made := key == at && (key in pending ==> pending[key].request.ptype != ptype);
            && (key in after <==> key == at || key in pending)
            && (key in after ==> after[key] == if made then Pending(I.PendingRequest(newId, ptype, "", kind), agent) else pending[key])
  {
  }

  lemma BaseHandled(r: State, e: Event, newId: string)
    ensures Handle(r, e, newId).0.base == if Doing(e).Some? then Doing(e).value else r.base
  {
  }

  lemma ToolsHandled(r: State, e: Event, newId: string)
    ensures Handle(r, e, newId).0.tools ==
              if e.agent == "" && (e.name == UserPromptSubmit || e.name == SessionEnd) then map[]
              else if IsPost(e) then r.tools - {Slot(e.agent, e.tool, e.toolKey)}
              else r.tools
  {
  }

  lemma SessionHandled(r: State, e: Event, newId: string)
    ensures Handle(r, e, newId).0.session == r.session && Handle(r, e, newId).0.prompt == r.prompt
    ensures Handle(r, e, newId).1 <==> Doing(e).Some? || Asks(r, e).Some? || IsStop(e)
  {
  }

  /** For every event and every key: a request is pending afterwards if and only if it was asked for now, or was and stays. */
  lemma PendingAfter(s: State, e: Event, newId: string, key: string)
    ensures var after := Apply(s, e, newId).0.pending;
            && (key in after <==> AsksAnew(s, e, key) || Stays(s, e, key))
            && (AsksAnew(s, e, key) ==>
                  after[key] == Pending(I.PendingRequest(newId, Asks(s, e).value.1, "", Asks(s, e).value.2), e.agent))
            && (Stays(s, e, key) && !AsksAnew(s, e, key) ==> after[key] == s.pending[key])
  {
    if Counts(s, e) {
      var r := Routed(s, e, newId);
      PendingHandled(r, e, newId, key);
    } else {
      NotRouted(s, e, newId);
    }
  }

  /** For every event and every slot: a tool id is remembered afterwards if and only if the event carries one that has not ended, or it was and stays. */
  lemma ToolsAfter(s: State, e: Event, newId: string, slot: string)
    ensures var after, mine := Apply(s, e, newId).0.tools, Counts(s, e) && slot == Slot(e.agent, e.tool, e.toolKey);
            && (slot in after <==> !Wipes(s, e) && !(mine && IsPost(e)) && (slot in s.tools || (mine && e.toolId != "")))
            && (slot in after ==> after[slot] == if mine && e.toolId != "" then e.toolId else s.tools[slot])
  {
    if Counts(s, e) {
      var r := Routed(s, e, newId);
      ToolsHandled(r, e, newId);
    } else {
      NotRouted(s, e, newId);
    }
  }

  lemma BaseAfter(s: State, e: Event, newId: string)
    ensures Apply(s, e, newId).0.base ==
              if Restarts(s, e) then Idle
              else if Counts(s, e) && Doing(e).Some? then Doing(e).value
              else s.base
  {
    if Counts(s, e) {
      var r := Routed(s, e, newId);
      BaseHandled(r, e, newId);
    } else {
      NotRouted(s, e, newId);
    }
  }

  lemma SessionAfter(s: State, e: Event, newId: string)
    ensures var after := Apply(s, e, newId).0;
            && after.session == (if Restarts(s, e) || s.session == "" then e.session else s.session)
            && after.prompt == (if Restarts(s, e) then "" else if IsPrompt(e) && Counts(s, e) then e.prompt else s.prompt)
  {
    if Counts(s, e) {
      var r := Routed(s, e, newId);
      SessionHandled(r, e, newId);
    } else {
      NotRouted(s, e, newId);
    }
  }

  /** An update goes out for the main agent's session start and for every counting event that has a meaning of its own. */
  lemma SentIff(s: State, e: Event, newId: string)
    ensures Apply(s, e, newId).1 <==>
              || (e.name == SessionStart && e.agent == "")
              || (Counts(s, e) && (Doing(e).Some? || Asks(s, e).Some? || IsStop(e)))
  {
    if Counts(s, e) {
      var r := Routed(s, e, newId);
      SessionHandled(r, e, newId);
    } else {
      NotRouted(s, e, newId);
    }
  }

  lemma StopHandled(r: State, e: Event, newId: string)
    requires IsStop(e)
    ensures Handle(r, e, newId).0 == r.(pending := WithoutAgent(r.pending, e.agent), base := if Doing(e).Some? then Doing(e).value else r.base)
  {
  }

  /** The stop of an agent ends its own requests and no others. */
  lemma StopClears(s: State, e: Event, newId: string, out: I.Interaction)
    requires IsStop(e) && Counts(s, e) && Emits(Apply(s, e, newId).0, out)
    ensures var after := Apply(s, e, newId).0;
            && (forall key :: key in after.pending <==> key in s.pending && s.pending[key].agent != e.agent)
            && (forall key :: key in after.pending ==> after.pending[key] == s.pending[key])
            && (e.toolId == "" ==> after.tools == s.tools)
            && (e.agent == "" && after.pending == map[] ==> out.state == if e.name == StopFailure then "unknown" else "idle")
  {
    var r := Routed(s, e, newId);
    StopHandled(r, e, newId);
  }

  lemma WipeHandled(r: State, e: Event, newId: string)
    requires e.agent == "" && (e.name == UserPromptSubmit || e.name == SessionEnd)
    ensures Handle(r, e, newId).0 == r.(pending := map[], tools := map[], base := if e.name == SessionEnd then Unknown else Working)
  {
  }

  /** A new prompt, the end of the session or a new session leave nothing pending and nothing remembered. */
  lemma WipeClears(s: State, e: Event, newId: string, out: I.Interaction)
    requires Wipes(s, e) && Emits(Apply(s, e, newId).0, out)
    ensures Apply(s, e, newId).0.pending == map[] && Apply(s, e, newId).0.tools == map[]
    ensures out.pending == None
    ensures out.state == if e.name == SessionStart then "idle" else if e.name == SessionEnd then "unknown" else "working"
  {
    if Counts(s, e) {
      var r := Routed(s, e, newId);
      WipeHandled(r, e, newId);
    } else {
      NotRouted(s, e, newId);
    }
  }

  /** The classes in which tools are put. */
  lemma ToolsAreClassified(tool: string)
    ensures TypeFor(tool) == I.Input <==> tool == "AskUserQuestion"
    ensures KindFor("Bash") == I.Command && KindFor("AskUserQuestion") == I.Question && KindFor("") == I.Other
    ensures KindFor(tool) == I.FileChange <==> tool in {"Edit", "Write", "MultiEdit", "NotebookEdit"}
    ensures tool !in {"Bash", "Edit", "Write", "MultiEdit", "NotebookEdit", "AskUserQuestion", ""} <==> KindFor(tool) == I.Tool
  {
  }

  // --- over whole traces -------------------------------------------------

  /** What the last event that says so leaves the session doing. */
  function LastDoing(s: State, trace: seq<Stamped>): Base {
    if trace == [] then s.base
    else
      var before, e := Run(s, trace[..|trace| - 1]), trace[|trace| - 1].event;
      if Restarts(before, e) then Idle
      else if Counts(before, e) && Doing(e).Some? then Doing(e).value
      else LastDoing(s, trace[..|trace| - 1])
  }

  /** A request was asked for, and nothing has wiped or dismissed it since. */
  ghost predicate Outstanding(s: State, trace: seq<Stamped>, key: string) {
    if trace == [] then key in s.pending
    else
      var before, e := Run(s, trace[..|trace| - 1]), trace[|trace| - 1].event;
      || AsksAnew(before, e, key)
      || (Outstanding(s, trace[..|trace| - 1], key) && Stays(before, e, key))
  }

  /**
   * Over every trace: a request is pending if and only if it was asked for and has
   * neither ended, nor its agent stopped, nor a prompt or session begun or ended
   * since; and with none pending, what is sent is what the last event that says so
   * leaves the session doing.
   */
  lemma {:induction false} TraceMeans(s: State, trace: seq<Stamped>, key: string)
    ensures key in Run(s, trace).pending <==> Outstanding(s, trace, key)
    ensures Run(s, trace).base == LastDoing(s, trace)
  {
    if trace != [] {
      var init, last := trace[..|trace| - 1], trace[|trace| - 1];
      TraceMeans(s, init, key);
      PendingAfter(Run(s, init), last.event, last.newId, key);
      BaseAfter(Run(s, init), last.event, last.newId);
    }
  }

  // ---------------------------------------------------------------------
  // Concurrent tool calls do not interfere
  // ---------------------------------------------------------------------

  /** One tool call: `args` is the fingerprint of its arguments, `id` its tool-use id. */
  datatype Call = Call(agent: string, tool: string, args: string, id: string)

  function SlotOf(c: Call): string {
    Slot(c.agent, c.tool, c.args)
  }

  function EntryOf(c: Call): string {
    ToolEntry(c.agent, c.id)
  }

  /** The event is one of this call's own; a permission request may leave the id out. */
  predicate Own(c: Call, e: Event) {
    && e.agent == c.agent && e.tool == c.tool && e.toolKey == c.args
    && (e.toolId == c.id || (e.toolId == "" && e.name == PermissionRequest))
    && (e.name == PreToolUse || e.name == PermissionRequest || IsPost(e))
  }

  /** The event makes a request if the call has none. */
  predicate Raises(e: Event) {
    e.name == PermissionRequest || (e.name == PreToolUse && e.tool == "AskUserQuestion")
  }

  /** The call has begun and not ended. */
  predicate Open(trace: seq<Stamped>, c: Call) {
    trace != [] &&
    var e := trace[|trace| - 1].event;
    if Own(c, e) then !IsPost(e) else Open(trace[..|trace| - 1], c)
  }

  predicate Begun(trace: seq<Stamped>, c: Call) {
    trace != [] && (Own(c, trace[|trace| - 1].event) || Begun(trace[..|trace| - 1], c))
  }

  /** The request of a call, from its own events alone. */
  function Expected(trace: seq<Stamped>, c: Call): Option<Pending> {
    if trace == [] then None
    else
      var before, Stamped(e, newId) := Expected(trace[..|trace| - 1], c), trace[|trace| - 1];
      if !Own(c, e) then before
      else if IsPost(e) then None
      else if Raises(e) && before.None? then Some(Pending(I.PendingRequest(newId, TypeFor(c.tool), "", KindFor(c.tool)), c.agent))
      else before
  }

  ghost predicate Distinct(calls: set<Call>) {
    && (forall c :: c in calls ==> c.id != "")
    && forall c, d :: c in calls && d in calls && c != d ==> SlotOf(c) != SlotOf(d) && EntryOf(c) != EntryOf(d)
  }

  /** Events of no tool call that leave tool calls alone. */
  ghost predicate Bystander(calls: set<Call>, e: Event) {
    && e.toolId == ""
    && (e.name == Elicitation || e.name == ElicitationResult || e.name == Notification || e.name == OtherName)
    && (forall c :: c in calls ==> ElicitationEntry(e) != EntryOf(c))
  }

  /** The last event may come where it does: every call is begun, asked about any number of times, and ended. */
  ghost predicate InTurn(calls: set<Call>, before: seq<Stamped>, e: Event) {
    || Bystander(calls, e)
    || exists c :: c in calls && Own(c, e) && if e.name == PreToolUse then !Begun(before, c) else Open(before, c)
  }

  ghost predicate Interleaving(s: State, calls: set<Call>, trace: seq<Stamped>) {
    trace == [] ||
    var before, e := trace[..|trace| - 1], trace[|trace| - 1].event;
    && Interleaving(s, calls, before) && Concerns(s, e) && InTurn(calls, before, e)
  }

  /** The tracker holds exactly what the call's own events call for. */
  ghost predicate Tracked(s: State, trace: seq<Stamped>, c: Call) {
    && (EntryOf(c) in s.pending <==> Expected(trace, c).Some?)
    && (EntryOf(c) in s.pending ==> s.pending[EntryOf(c)] == Expected(trace, c).value)
    && (SlotOf(c) in s.tools <==> Open(trace, c)) && (SlotOf(c) in s.tools ==> s.tools[SlotOf(c)] == c.id)
  }

  ghost predicate Untouched(s: State, calls: set<Call>) {
    s.session != "" && forall c :: c in calls ==> EntryOf(c) !in s.pending && SlotOf(c) !in s.tools
  }

  lemma {:induction false} ExpectedType(trace: seq<Stamped>, c: Call)
    ensures Expected(trace, c).Some? ==> Expected(trace, c).value.request.ptype == TypeFor(c.tool)
  {
    if trace != [] {
      ExpectedType(trace[..|trace| - 1], c);
    }
  }

  /** A tool event that concerns the session goes to `Handle`, and keeps session and prompt. */
  lemma ToolEventApplies(s: State, e: Event, newId: string)
    requires s.session != "" && Concerns(s, e)
    requires e.name in {PreToolUse, PermissionRequest, PostToolUse, PostToolUseFailure,
                        Elicitation, ElicitationResult, Notification, OtherName}
    ensures var s' := Apply(s, e, newId).0;
            s' == Handle(Remembered(s, e), e, newId).0 && s'.session == s.session && s'.prompt == s.prompt
  {
  }

  /** The id under which a call's own event is filed is the call's id. */
  lemma OwnId(s: State, c: Call, e: Event)
    requires Own(c, e) && c.id != "" && (e.toolId == "" ==> SlotOf(c) in s.tools && s.tools[SlotOf(c)] == c.id)
    ensures ToolIdOf(Remembered(s, e).tools, e) == c.id && Slot(e.agent, e.tool, e.toolKey) == SlotOf(c)
  {
  }

  lemma OwnStep(s: State, before: seq<Stamped>, c: Call, e: Event, newId: string)
    requires s.session != "" && Concerns(s, e) && c.id != "" && Own(c, e)
    requires Tracked(s, before, c) && (if e.name == PreToolUse then !Begun(before, c) else Open(before, c))
    ensures Tracked(Apply(s, e, newId).0, before + [Stamped(e, newId)], c)
  {
    var trace := before + [Stamped(e, newId)];
    assert trace[..|before|] == before && trace[|before|] == Stamped(e, newId);
    ToolEventApplies(s, e, newId);
    OwnId(s, c, e);
    ExpectedType(before, c);
  }

  /** What an event of another call, or of none, does to this one: nothing. */
  lemma OtherStep(s: State, before: seq<Stamped>, c: Call, d: Call, e: Event, newId: string)
    requires s.session != "" && Concerns(s, e) && d.id != "" && Own(d, e)
    requires SlotOf(c) != SlotOf(d) && EntryOf(c) != EntryOf(d)
    requires e.toolId == "" ==> SlotOf(d) in s.tools && s.tools[SlotOf(d)] == d.id
    requires Tracked(s, before, c)
    ensures Tracked(Apply(s, e, newId).0, before + [Stamped(e, newId)], c)
  {
    var trace := before + [Stamped(e, newId)];
    assert trace[..|before|] == before && trace[|before|] == Stamped(e, newId);
    ToolEventApplies(s, e, newId);
    OwnId(s, d, e);
    assert !Own(c, e);
  }

  lemma BystanderStep(s: State, before: seq<Stamped>, calls: set<Call>, c: Call, e: Event, newId: string)
    requires s.session != "" && Concerns(s, e) && Bystander(calls, e) && c in calls && Tracked(s, before, c)
    ensures Tracked(Apply(s, e, newId).0, before + [Stamped(e, newId)], c)
  {
    var trace := before + [Stamped(e, newId)];
    assert trace[..|before|] == before && trace[|before|] == Stamped(e, newId);
    ToolEventApplies(s, e, newId);
    BystanderFrame(s, e, newId, EntryOf(c));
    assert !Own(c, e);
  }

  lemma BystanderFrame(s: State, e: Event, newId: string, key: string)
    requires e.name == Elicitation || e.name == ElicitationResult || e.name == Notification || e.name == OtherName
    requires key != ElicitationEntry(e)
    ensures var s' := Handle(s, e, newId).0;
            && s'.tools == s.tools && (key in s'.pending <==> key in s.pending)
            && (key in s.pending ==> s'.pending[key] == s.pending[key])
  {
  }

  /**
   * For every interleaving of tool calls, and at every point of it, the pending
   * request of each call is exactly what that call's own events call for.
   */
  lemma {:induction false} CallsDoNotInterfere(s: State, calls: set<Call>, trace: seq<Stamped>)
    requires Distinct(calls) && Untouched(s, calls) && Interleaving(s, calls, trace)
    ensures Run(s, trace).session == s.session && Run(s, trace).prompt == s.prompt
    ensures forall c :: c in calls ==> Tracked(Run(s, trace), trace, c)
  {
    if trace != [] {
      var before := trace[..|trace| - 1];
      var Stamped(e, newId) := trace[|trace| - 1];
      assert trace == before + [Stamped(e, newId)];
      CallsDoNotInterfere(s, calls, before);
      var now := Run(s, before);
      ToolEventApplies(now, e, newId);
      forall c | c in calls ensures Tracked(Run(s, trace), trace, c) {
        StepKeepsTrack(now, calls, before, c, e, newId);
      }
    }
  }

  lemma StepKeepsTrack(s: State, calls: set<Call>, before: seq<Stamped>, c: Call, e: Event, newId: string)
    requires s.session != "" && Concerns(s, e) && Distinct(calls) && InTurn(calls, before, e) && c in calls
    requires forall d :: d in calls ==> Tracked(s, before, d)
    ensures Tracked(Apply(s, e, newId).0, before + [Stamped(e, newId)], c)
  {
    if Bystander(calls, e) {
      BystanderStep(s, before, calls, c, e, newId);
    } else {
      var d :| d in calls && Own(d, e) && if e.name == PreToolUse then !Begun(before, d) else Open(before, d);
      assert Tracked(s, before, d);
      if c == d {
        OwnStep(s, before, c, e, newId);
      } else {
        OtherStep(s, before, c, d, e, newId);
      }
    }
  }

  lemma {:induction false} ExpectedIsStable(trace: seq<Stamped>, c: Call, k: nat, m: nat)
    requires k <= m <= |trace| && Expected(trace[..k], c).Some?
    requires forall i :: k <= i < m ==> !(Own(c, trace[i].event) && IsPost(trace[i].event))
    ensures Expected(trace[..m], c) == Expected(trace[..k], c)
  {
    if k < m {
      ExpectedIsStable(trace, c, k, m - 1);
      assert trace[..m][..m - 1] == trace[..m - 1];
    }
  }

  lemma {:induction false} InterleavingPrefix(s: State, calls: set<Call>, trace: seq<Stamped>, k: nat)
    requires Interleaving(s, calls, trace) && k <= |trace|
    ensures Interleaving(s, calls, trace[..k])
    decreases |trace| - k
  {
    if k < |trace| {
      InterleavingPrefix(s, calls, trace, k + 1);
      assert trace[..k + 1][..k] == trace[..k];
    } else {
      assert trace[..k] == trace;
    }
  }

  /** Once raised, a request keeps its id until the call's own end, whatever other calls do meanwhile. */
  lemma RequestIsStable(s: State, calls: set<Call>, trace: seq<Stamped>, c: Call, k: nat, m: nat)
    requires Distinct(calls) && Untouched(s, calls) && Interleaving(s, calls, trace) && c in calls && k <= m <= |trace|
    requires EntryOf(c) in Run(s, trace[..k]).pending
    requires forall i :: k <= i < m ==> !(Own(c, trace[i].event) && IsPost(trace[i].event))
    ensures EntryOf(c) in Run(s, trace[..m]).pending
    ensures Run(s, trace[..m]).pending[EntryOf(c)] == Run(s, trace[..k]).pending[EntryOf(c)]
  {
    InterleavingPrefix(s, calls, trace, k);
    InterleavingPrefix(s, calls, trace, m);
    CallsDoNotInterfere(s, calls, trace[..k]);
    CallsDoNotInterfere(s, calls, trace[..m]);
    assert Tracked(Run(s, trace[..k]), trace[..k], c) && Tracked(Run(s, trace[..m]), trace[..m], c);
    ExpectedIsStable(trace, c, k, m);
  }

  // ---------------------------------------------------------------------
  // When keys are distinct
  // ---------------------------------------------------------------------

  predicate NoSlash(s: string) {
    '/' !in s
  }

  lemma CutFirst(a: string, x: string, b: string, y: string)
    requires NoSlash(a) && NoSlash(b) && a + "/" + x == b + "/" + y
    ensures a == b && x == y
  {
    var s := a + "/" + x;
    assert s[|a|] == '/' && s[|b|] == '/';
    assert forall i :: 0 <= i < |a| ==> s[i] == a[i];
    assert forall i :: 0 <= i < |b| ==> s[i] == b[i];
    assert s[..|a|] == a && s[..|b|] == b && s[|a| + 1..] == x && s[|b| + 1..] == y;
  }

  lemma CutLast(x: string, a: string, y: string, b: string)
    requires NoSlash(a) && NoSlash(b) && x + "/" + a == y + "/" + b
    ensures x == y && a == b
  {
    var s := x + "/" + a;
    assert s[|x|] == '/' && s[|y|] == '/';
    assert forall i :: |x| < i < |s| ==> s[i] == a[i - |x| - 1];
    assert forall i :: |y| < i < |s| ==> s[i] == b[i - |y| - 1];
    assert s[..|x|] == x && s[..|y|] == y && s[|x| + 1..] == a && s[|y| + 1..] == b;
  }

  /** With agent ids and fingerprints free of slashes, different calls have different keys. */
  lemma KeysAreDistinct(c: Call, d: Call)
    requires NoSlash(c.agent) && NoSlash(d.agent) && NoSlash(c.args) && NoSlash(d.args)
    ensures SlotOf(c) == SlotOf(d) <==> c.agent == d.agent && c.tool == d.tool && c.args == d.args
    ensures EntryOf(c) == EntryOf(d) <==> c.agent == d.agent && c.id == d.id
  {
    if SlotOf(c) == SlotOf(d) {
      assert SlotOf(c) == c.agent + "/" + (c.tool + "/" + c.args) && SlotOf(d) == d.agent + "/" + (d.tool + "/" + d.args);
      CutFirst(c.agent, c.tool + "/" + c.args, d.agent, d.tool + "/" + d.args);
      CutLast(c.tool, c.args, d.tool, d.args);
    }
    if EntryOf(c) == EntryOf(d) {
      assert EntryOf(c) == c.agent + "/" + ("tool/" + c.id) && EntryOf(d) == d.agent + "/" + ("tool/" + d.id);
      CutFirst(c.agent, "tool/" + c.id, d.agent, "tool/" + d.id);
      assert c.id == ("tool/" + c.id)[5..] && d.id == ("tool/" + d.id)[5..];
    }
  }

  /** Tool requests and elicitations never share a key. */
  lemma ElicitationsAreApart(c: Call, e: Event)
    requires NoSlash(c.agent) && NoSlash(e.agent)
    ensures ElicitationEntry(e) != EntryOf(c)
  {
    var x, y := "elicitation/" + e.server + "/" + e.elicitation, "tool/" + c.id;
    assert x[0] == 'e' && y[0] == 't';
    assert ElicitationEntry(e) == e.agent + "/" + x && EntryOf(c) == c.agent + "/" + y;
    if ElicitationEntry(e) == EntryOf(c) {
      CutFirst(e.agent, x, c.agent, y);
    }
  }

  /** With a slash in an agent id, two different calls can share a slot. */
  lemma SlashesCollide(c: Call)
    ensures SlotOf(Call(c.agent + "/" + c.tool, "x", c.args, c.id)) == SlotOf(Call(c.agent, c.tool + "/x", c.args, c.id))
  {
  }

  function EventOf(s: State, c: Call, name: Name, toolId: string): Event {
    Event(name, s.session, "", c.agent, c.tool, toolId, c.args, "", "", "", "")
  }

  /**
   * Two calls begin, then the first asks for permission without its id: the
   * request is filed under that call exactly when the slots differ. Calls of
   * one agent with the same tool and the same arguments are the failing family.
   */
  lemma SlotsDecide(s: State, c: Call, d: Call, newId: string)
    requires s.session != "" && c.id != "" && d.id != "" && c.id != d.id
    requires c.tool != "AskUserQuestion" && d.tool != "AskUserQuestion" && EntryOf(c) !in s.pending
    ensures var s1 := Apply(s, EventOf(s, c, PreToolUse, c.id), newId).0;
            var s2 := Apply(s1, EventOf(s, d, PreToolUse, d.id), newId).0;
            var s3 := Apply(s2, EventOf(s, c, PermissionRequest, ""), newId).0;
            EntryOf(c) in s3.pending <==> SlotOf(c) != SlotOf(d)
  {
    var s1 := Apply(s, EventOf(s, c, PreToolUse, c.id), newId).0;
    var s2 := Apply(s1, EventOf(s, d, PreToolUse, d.id), newId).0;
    ToolEventApplies(s, EventOf(s, c, PreToolUse, c.id), newId);
    ToolEventApplies(s1, EventOf(s, d, PreToolUse, d.id), newId);
    ToolEventApplies(s2, EventOf(s, c, PermissionRequest, ""), newId);
    assert s2.tools[SlotOf(c)] == if SlotOf(c) != SlotOf(d) then c.id else d.id;
    EntriesDiffer(c.agent, c.id, d.id);
  }

  lemma EntriesDiffer(agent: string, a: string, b: string)
    requires a != b
    ensures ToolEntry(agent, a) != ToolEntry(agent, b)
  {
    assert ToolEntry(agent, a)[|agent| + 6..] == a && ToolEntry(agent, b)[|agent| + 6..] == b;
  }

  // ---------------------------------------------------------------------
  // The tracker
  // ---------------------------------------------------------------------

  class Tracker {
    var session: string
    var prompt: string
    var base: Base
    var pending: map<string, Pending>
    var tools: map<string, string>

    constructor ()
      ensures Value() == NewState
    {
      session, prompt, base, pending, tools := "", "", Unset, map[], map[];
    }

    ghost function Value(): State
      reads this
    {
      State(session, prompt, base, pending, tools)
    }

    method AddRequest(key: string, ptype: I.PendingType, kind: I.PendingKind, agent: string, newId: string)
      modifies this`pending
      ensures pending == Add(old(pending), key, ptype, kind, agent, newId)
    {
      if key in pending && pending[key].request.ptype == ptype { return; }
      pending := pending[key := Pending(I.PendingRequest(newId, ptype, "", kind), agent)];
    }

    method DropAgent(agent: string)
      modifies this`pending
      ensures pending == WithoutAgent(old(pending), agent)
    {
      var left := pending.Keys;
      while left != {}
        invariant forall key :: key in pending <==> key in old(pending) && (key in left || old(pending)[key].agent != agent)
        invariant left <= pending.Keys && forall key :: key in pending ==> pending[key] == old(pending)[key]
        decreases left
      {
        var key :| key in left;
        left := left - {key};
        if pending[key].agent == agent { pending := pending - {key}; }
      }
    }

    /** The request to announce, visiting the map in any order. */
    method SelectPending() returns (selected: Option<string>)
      ensures if pending == map[] then selected == None else selected.Some? && Chosen(pending, selected.value)
    {
      selected := None;
      var left := pending.Keys;
      ghost var seen: set<string> := {};
      while left != {}
        invariant seen + left == pending.Keys && seen !! left
        invariant if seen == {} then selected == None else selected.Some? && BestOf(pending, seen, selected.value)
        decreases left
      {
        var key :| key in left;
        if selected.None? {
          selected := Some(key);
        } else {
          BestStep(pending, seen, selected.value, key);
          BeforeTotal(key, selected.value);
          if (IsApproval(pending[key]) && !IsApproval(pending[selected.value]))
            || (pending[key].request.ptype == pending[selected.value].request.ptype && Before(key, selected.value)) {
            selected := Some(key);
          }
        }
        left := left - {key};
        seen := seen + {key};
      }
    }

    method Announce() returns (out: I.Interaction)
      ensures Emits(Value(), out)
    {
      out := I.Interaction(Text(base), 0, 0, 0, None, "claude-hooks", CAPABILITIES);
      var selected := SelectPending();
      if selected.Some? {
        var p := pending[selected.value];
        out := out.(pending := Some(p.request),
                    state := if IsApproval(p) then "waiting_for_approval" else "waiting_for_input");
        assert Chosen(pending, selected.value) && Announces(pending[selected.value], out);
      }
    }

    method HandleEvent(e: Event, newId: string) returns (emit: bool)
      modifies this
      ensures (Value(), emit) == Handle(old(Value()), e, newId)
    {
      var id := e.toolId;
      var slot := Slot(e.agent, e.tool, e.toolKey);
      if id == "" && slot in tools { id := tools[slot]; }
      if id == "" { id := e.tool; }
      var key := ToolEntry(e.agent, id);
      emit := true;
      match e.name
      case UserPromptSubmit =>
        if e.agent != "" { return false; }
        pending, tools, base := map[], map[], Working;
      case PreToolUse =>
        base := Working;
        if e.tool == "AskUserQuestion" { AddRequest(key, I.Input, I.Question, e.agent, newId); }
      case PermissionRequest =>
        var ptype := I.Approval;
        if e.tool == "AskUserQuestion" { ptype := I.Input; }
        AddRequest(key, ptype, KindFor(e.tool), e.agent, newId);
      case PostToolUse =>
        pending, tools, base := pending - {key}, tools - {slot}, Working;
      case PostToolUseFailure =>
        pending, tools, base := pending - {key}, tools - {slot}, Working;
      case Elicitation =>
        AddRequest(ElicitationEntry(e), I.Input, I.Question, e.agent, newId);
      case ElicitationResult =>
        pending, base := pending - {ElicitationEntry(e)}, Working;
      case Stop =>
        DropAgent(e.agent);
        if e.agent == "" { base := Idle; }
      case StopFailure =>
        DropAgent(e.agent);
        if e.agent == "" { base := Unknown; }
      case SubagentStop =>
        DropAgent(e.agent);
        if e.agent == "" { base := Idle; }
      case SessionEnd =>
        if e.agent != "" { return false; }
        pending, tools, base := map[], map[], Unknown;
      case Notification =>
        if e.notification != "idle_prompt" || e.agent != "" { return false; }
        base := Idle;
      case _ =>
        return false;
    }

    method ApplyEvent(e: Event, newId: string) returns (out: Option<I.Interaction>)
      modifies this
      ensures (Value(), out.Some?) == Apply(old(Value()), e, newId)
      ensures out.Some? ==> Emits(Value(), out.value)
    {
      if e.name == SessionStart && e.agent == "" {
        if session != e.session || e.source != "compact" {
          session, prompt, base, pending, tools := e.session, "", Idle, map[], map[];
        }
      } else {
        if session == "" { session := e.session; }
        if session != e.session { return None; }
        if e.name == UserPromptSubmit && e.agent == "" { prompt := e.prompt; }
        if e.prompt != "" && prompt != "" && e.prompt != prompt { return None; }
        if e.toolId != "" { tools := tools[Slot(e.agent, e.tool, e.toolKey) := e.toolId]; }
        var emit := HandleEvent(e, newId);
        if !emit { return None; }
      }
      var next := Announce();
      out := Some(next);
    }
  }
}
