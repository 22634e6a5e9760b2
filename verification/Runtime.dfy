/** The runtime registry: executions register in a table of running tasks, prove
    their authorization, call an adapter and finish, while stop requests cancel
    them by owner at any point in between. */
module Runtime {
  import opened Wrappers
  import opened Text

  datatype Info = Info(enabled: bool, configured: bool, executionEnabled: bool, requiresApproval: bool)

  datatype Task = Task(
    id: string, prompt: string, projectKey: string, owner: string,
    humanApproved: bool, approvalSource: string, proof: Proof)

  /** The request presented at the last boundary. Its digest is injective, so a
      proof that carries the digest is modelled as carrying the request. */
  datatype EffectRequest = EffectRequest(
    runtimeId: string, taskId: string, owner: string, projectKey: string,
    prompt: string, approvalSource: string, requiresApproval: bool)

  datatype Proof = Proof(receiptValid: bool, digestsValid: bool, bound: Option<EffectRequest>)

  const MAX_PROMPT_BYTES := 50 * 1024

  function NormalizeRuntime(runtimeId: string): string {
    Lower(Trim(runtimeId))
  }

  function RuntimeTaskKey(runtimeId: string, taskId: string): string {
    NormalizeRuntime(runtimeId) + ":" + Trim(taskId)
  }

  function FinalEffectRequest(runtimeId: string, task: Task, info: Info): EffectRequest {
    EffectRequest(NormalizeRuntime(runtimeId), Trim(task.id), Trim(task.owner), Trim(task.projectKey),
                  task.prompt, Trim(task.approvalSource), info.requiresApproval)
  }

  predicate ProofFits(request: EffectRequest, proof: Proof) {
    proof.receiptValid && proof.bound == Some(request) && proof.digestsValid
  }

  /** What the environment decides: the registered adapters, which approval
      sources parse, and how many bytes a prompt takes. */
  datatype Config = Config(adapters: map<string, Info>, approvalSourceOk: string -> bool, size: string -> nat)

  predicate Admitted(c: Config, runtimeId: string, task: Task, emergencyStop: bool) {
    && !emergencyStop
    && NormalizeRuntime(runtimeId) in c.adapters
    && var info := c.adapters[NormalizeRuntime(runtimeId)];
    && info.enabled && info.configured && info.executionEnabled
    && Trim(task.id) != "" && Trim(task.owner) != ""
    && (info.requiresApproval ==> task.humanApproved && c.approvalSourceOk(Trim(task.approvalSource)))
    && Trim(task.prompt) != "" && c.size(task.prompt) <= MAX_PROMPT_BYTES
  }

  // The running table

  /** A context reports the first thing that ended it. */
  datatype Context = Live | Canceled | DeadlineExceeded

  function Cancel(c: Context): Context {
    if c == Live then Canceled else c
  }

  datatype Entry = Entry(owner: string, execution: nat)

  datatype StopOutcome = OwnerRequired | TaskRequired | OtherOwner | Stopping | NotRegistered | NotTracked

  /** Which execution a stop request reaches, if any. */
  function StopTarget(running: map<string, Entry>, runtimeId: string, taskId: string, owner: string): Option<nat> {
    var key := RuntimeTaskKey(runtimeId, taskId);
    if Trim(owner) != "" && Trim(taskId) != "" && key in running && running[key].owner == Trim(owner)
    then Some(running[key].execution) else None
  }

  function StopAnswer(running: map<string, Entry>, adapters: set<string>, runtimeId: string, taskId: string, owner: string): StopOutcome {
    var key := RuntimeTaskKey(runtimeId, taskId);
    if Trim(owner) == "" then OwnerRequired
    else if Trim(taskId) == "" then TaskRequired
    else if key in running && running[key].owner != Trim(owner) then OtherOwner
    else if key in running then Stopping
    else if NormalizeRuntime(runtimeId) !in adapters then NotRegistered
    else NotTracked
  }

  class Registry {
    const adapters: set<string>
    var running: map<string, Entry>
    var contexts: map<nat, Context>

    constructor (adapters: set<string>)
      ensures this.adapters == adapters && running == map[] && contexts == map[]
    {
      this.adapters := adapters;
      running, contexts := map[], map[];
    }

    /** Takes the key if it is free; a task without an ID is never tracked. */
    method RegisterRunningTask(runtimeId: string, task: Task, execution: nat) returns (registered: bool)
      modifies this
      ensures registered <==> Trim(task.id) != "" && RuntimeTaskKey(runtimeId, task.id) !in old(running)
      ensures running == if registered then old(running)[RuntimeTaskKey(runtimeId, task.id) := Entry(Trim(task.owner), execution)] else old(running)
      ensures contexts == if registered then old(contexts)[execution := Live] else old(contexts)
    {
      if Trim(task.id) == "" { return false; }
      var key := RuntimeTaskKey(runtimeId, task.id);
      if key in running { return false; }
      contexts := contexts[execution := Live];
      running := running[key := Entry(Trim(task.owner), execution)];
      return true;
    }

    method FinishRunningTask(runtimeId: string, taskId: string)
      modifies this
      ensures running == if Trim(taskId) == "" then old(running) else old(running) - {RuntimeTaskKey(runtimeId, taskId)}
      ensures contexts == old(contexts)
    {
      if Trim(taskId) == "" { return; }
      running := running - {RuntimeTaskKey(runtimeId, taskId)};
    }

    method StopTask(runtimeId: string, taskId: string, owner: string) returns (outcome: StopOutcome)
      modifies this
      ensures outcome == StopAnswer(running, adapters, runtimeId, taskId, owner) && running == old(running)
      ensures outcome == Stopping <==> StopTarget(running, runtimeId, taskId, owner).Some?
      ensures contexts == match StopTarget(running, runtimeId, taskId, owner)
        case None => old(contexts)
        case Some(e) => if e in old(contexts) then old(contexts)[e := Cancel(old(contexts)[e])] else old(contexts)
    {
      hide Trim, NormalizeRuntime, RuntimeTaskKey;
      if Trim(owner) == "" { return OwnerRequired; }
      if Trim(taskId) == "" { return TaskRequired; }
      var key := RuntimeTaskKey(runtimeId, taskId);
      if key !in running {
        return if NormalizeRuntime(runtimeId) !in adapters then NotRegistered else NotTracked;
      }
      var entry := running[key];
      if entry.owner != Trim(owner) { return OtherOwner; }
      if entry.execution in contexts {
        contexts := contexts[entry.execution := Cancel(contexts[entry.execution])];
      }
      return Stopping;
    }
  }

  // Executions and stops, interleaved

  datatype Result = Blocked | Finished(output: string)

  datatype Pc =
    | Registered             // in the table, proof not yet checked
    | Verified               // proof accepted, cancellation not yet checked
    | Cleared                // found live; the adapter is called unless the emergency stop is on
    | Calling                // inside the adapter
    | Leaving(result: Result)
    | Gone(result: Result)

  datatype Execution = Execution(runtimeId: string, task: Task, info: Info, pc: Pc)

  datatype System = System(
    running: map<string, Entry>, contexts: map<nat, Context>,
    executions: map<nat, Execution>, adapterCalls: seq<nat>)

  const INITIAL := System(map[], map[], map[], [])

  datatype Action =
    | Enter(execution: nat, runtimeId: string, task: Task, emergencyStop: bool)
    | Verify(execution: nat, accepted: bool)
    | CheckLive(execution: nat)
    | Invoke(execution: nat, emergencyStop: bool)
    | Return(execution: nat, output: string)
    | Leave(execution: nat)
    | Stop(runtimeId: string, taskId: string, owner: string)
    | EndParent(execution: nat, expired: bool)

  predicate InFlight(pc: Pc) {
    !pc.Gone?
  }

  predicate Enabled(c: Config, s: System, a: Action) {
    match a
    case Enter(e, r, t, stop) => e !in s.executions && Admitted(c, r, t, stop) && RuntimeTaskKey(r, t.id) !in s.running
    case Verify(e, _) => e in s.executions && s.executions[e].pc == Registered
    case CheckLive(e) => e in s.executions && s.executions[e].pc == Verified && e in s.contexts
    case Invoke(e, _) => e in s.executions && s.executions[e].pc == Cleared
    case Return(e, _) => e in s.executions && s.executions[e].pc == Calling && e in s.contexts
    case Leave(e) => e in s.executions && s.executions[e].pc.Leaving? && e in s.contexts
    case Stop(r, t, o) => StopTarget(s.running, r, t, o).Some? && StopTarget(s.running, r, t, o).value in s.contexts
    case EndParent(e, _) => e in s.contexts
  }

  function At(s: System, e: nat, pc: Pc): map<nat, Execution>
    requires e in s.executions
  {
    s.executions[e := s.executions[e].(pc := pc)]
  }

  function KeyOf(x: Execution): string {
    RuntimeTaskKey(x.runtimeId, x.task.id)
  }

  function Step(c: Config, s: System, a: Action): System
    requires Enabled(c, s, a)
  {
    match a
    case Enter(e, r, t, _) =>
      var x := Execution(r, t, c.adapters[NormalizeRuntime(r)], Registered);
      s.(running := s.running[KeyOf(x) := Entry(Trim(t.owner), e)],
         contexts := s.contexts[e := Live], executions := s.executions[e := x])
    case Verify(e, accepted) =>
      var x := s.executions[e];
      var ok := accepted && ProofFits(FinalEffectRequest(x.runtimeId, x.task, x.info), x.task.proof);
      s.(executions := At(s, e, if ok then Verified else Leaving(Blocked)))
    case CheckLive(e) =>
      s.(executions := At(s, e, if s.contexts[e] == Live then Cleared else Leaving(Blocked)))
    case Invoke(e, stop) =>
      if stop then s.(executions := At(s, e, Leaving(Blocked)))
      else s.(executions := At(s, e, Calling), adapterCalls := s.adapterCalls + [e])
    case Return(e, output) =>
      s.(executions := At(s, e, Leaving(if s.contexts[e] == Canceled then Blocked else Finished(output))))
    case Leave(e) =>
      s.(running := s.running - {KeyOf(s.executions[e])},
         contexts := s.contexts[e := Cancel(s.contexts[e])],
         executions := At(s, e, Gone(s.executions[e].pc.result)))
    case Stop(r, t, o) =>
      var e := StopTarget(s.running, r, t, o).value;
      s.(contexts := s.contexts[e := Cancel(s.contexts[e])])
    case EndParent(e, expired) =>
      s.(contexts := s.contexts[e := if s.contexts[e] != Live then s.contexts[e] else if expired then DeadlineExceeded else Canceled])
  }

  function Run(c: Config, s: System, actions: seq<Action>): System {
    if actions == [] then s
    else
      var before := Run(c, s, actions[..|actions| - 1]);
      var last := actions[|actions| - 1];
      if Enabled(c, before, last) then Step(c, before, last) else before
  }

  /** The table is exactly the set of executions in flight: every entry belongs to
      one, under that execution's own key and owner, and every one has its entry. */
  ghost predicate TableExact(s: System) {
    && (forall key :: key in s.running ==>
          var e := s.running[key].execution;
          e in s.executions && InFlight(s.executions[e].pc) && KeyOf(s.executions[e]) == key
          && s.running[key].owner == Trim(s.executions[e].task.owner))
    && (forall e :: e in s.executions && InFlight(s.executions[e].pc) ==>
          var key := KeyOf(s.executions[e]);
          key in s.running && s.running[key].execution == e)
    && s.contexts.Keys == s.executions.Keys
  }

  /** The adapter is called at most once per execution, and only with a proof bound
      to that execution's runtime, task, owner, project, prompt and approval. */
  ghost predicate CallsBound(c: Config, s: System) {
    && (forall e :: e in s.executions ==>
          var x := s.executions[e];
          && NormalizeRuntime(x.runtimeId) in c.adapters
          && (x.pc in {Registered, Verified, Cleared} ==> e !in s.adapterCalls)
          && (x.pc in {Verified, Cleared} || e in s.adapterCalls ==>
                ProofFits(FinalEffectRequest(x.runtimeId, x.task, x.info), x.task.proof)))
    && (forall e :: e in s.adapterCalls ==> e in s.executions)
    && (forall i, j :: 0 <= i < j < |s.adapterCalls| ==> s.adapterCalls[i] != s.adapterCalls[j])
  }

  ghost predicate Invariant(c: Config, s: System) {
    TableExact(s) && CallsBound(c, s)
  }

  lemma EnterKeepsTable(c: Config, s: System, a: Action)
    requires Enabled(c, s, a) && a.Enter? && TableExact(s)
    ensures TableExact(Step(c, s, a))
  {
    hide RuntimeTaskKey, Trim, NormalizeRuntime;
  }

  lemma LeaveKeepsTable(c: Config, s: System, a: Action)
    requires Enabled(c, s, a) && a.Leave? && TableExact(s)
    ensures TableExact(Step(c, s, a))
  {
    hide RuntimeTaskKey, Trim;
    var t := Step(c, s, a);
    forall e | e in t.executions && InFlight(t.executions[e].pc)
      ensures KeyOf(t.executions[e]) in t.running && t.running[KeyOf(t.executions[e])].execution == e
    {
      assert s.running[KeyOf(s.executions[a.execution])].execution == a.execution;
    }
  }

  lemma OtherStep(c: Config, s: System, a: Action)
    requires Enabled(c, s, a) && !a.Enter? && !a.Leave? && s.contexts.Keys == s.executions.Keys
    ensures var t := Step(c, s, a);
      && t.running == s.running && t.contexts.Keys == s.contexts.Keys
      && (a.Stop? || a.EndParent? ==> t.executions == s.executions)
      && (!a.Stop? && !a.EndParent? ==>
            var e, x := a.execution, s.executions[a.execution];
            InFlight(x.pc) && exists pc :: InFlight(pc) && t.executions == s.executions[e := x.(pc := pc)])
  {
    hide RuntimeTaskKey, Trim, ProofFits, FinalEffectRequest, NormalizeRuntime, Admitted;
    var t := Step(c, s, a);
    if !a.Stop? && !a.EndParent? { assert InFlight(t.executions[a.execution].pc); }
  }

  lemma OtherStepKeepsTable(c: Config, s: System, a: Action)
    requires Enabled(c, s, a) && !a.Enter? && !a.Leave? && TableExact(s)
    ensures TableExact(Step(c, s, a))
  {
    OtherStep(c, s, a);
    hide RuntimeTaskKey, Trim, Step, Enabled;
  }

  lemma StepKeepsTable(c: Config, s: System, a: Action)
    requires Enabled(c, s, a) && TableExact(s)
    ensures TableExact(Step(c, s, a))
  {
    hide TableExact, Step, Enabled;
    if a.Enter? { EnterKeepsTable(c, s, a); } else if a.Leave? { LeaveKeepsTable(c, s, a); } else { OtherStepKeepsTable(c, s, a); }
  }

  lemma StepKeepsBound(c: Config, s: System, a: Action)
    requires Enabled(c, s, a) && CallsBound(c, s)
    ensures CallsBound(c, Step(c, s, a))
  {
    hide RuntimeTaskKey, Trim, ProofFits, FinalEffectRequest, NormalizeRuntime;
    var t := Step(c, s, a);
    if a.Invoke? && !a.emergencyStop {
      assert t.adapterCalls == s.adapterCalls + [a.execution];
    }
  }

  lemma {:induction false} RunKeepsInvariant(c: Config, actions: seq<Action>)
    ensures Invariant(c, Run(c, INITIAL, actions))
  {
    if actions != [] {
      var n := |actions| - 1;
      RunKeepsInvariant(c, actions[..n]);
      var s := Run(c, INITIAL, actions[..n]);
      if Enabled(c, s, actions[n]) {
        StepKeepsTable(c, s, actions[n]);
        StepKeepsBound(c, s, actions[n]);
      }
    }
  }

  /** At most one execution per runtime and task is ever in flight. */
  lemma OnePerTask(c: Config, actions: seq<Action>, d: nat, e: nat)
    requires var s := Run(c, INITIAL, actions);
      && d in s.executions && e in s.executions
      && InFlight(s.executions[d].pc) && InFlight(s.executions[e].pc)
      && KeyOf(s.executions[d]) == KeyOf(s.executions[e])
    ensures d == e
  {
    RunKeepsInvariant(c, actions);
  }

  /** Leaving removes one's own entry and no other. */
  lemma LeaveRemovesOwnEntry(c: Config, actions: seq<Action>, e: nat)
    requires Enabled(c, Run(c, INITIAL, actions), Leave(e))
    ensures var s := Run(c, INITIAL, actions);
      && var t := Step(c, s, Leave(e));
      && (forall key :: key in t.running <==> key in s.running && s.running[key].execution != e)
      && (forall key :: key in t.running ==> t.running[key] == s.running[key])
  {
    hide RuntimeTaskKey, Trim;
    RunKeepsInvariant(c, actions);
  }

  /** A stop touches one execution at most, and only one of the same owner. */
  lemma StopReachesOwnTaskOnly(c: Config, actions: seq<Action>, r: string, task: string, owner: string, e: nat)
    requires Enabled(c, Run(c, INITIAL, actions), Stop(r, task, owner))
    requires var s := Run(c, INITIAL, actions);
      e in s.executions && e in s.contexts && Step(c, s, Stop(r, task, owner)).contexts[e] != s.contexts[e]
    ensures var s := Run(c, INITIAL, actions);
      && Trim(s.executions[e].task.owner) == Trim(owner) && InFlight(s.executions[e].pc)
      && KeyOf(s.executions[e]) == RuntimeTaskKey(r, task)
  {
    hide RuntimeTaskKey, Trim;
    RunKeepsInvariant(c, actions);
  }

  // What an accepted stop does to the rest of the run

  lemma {:induction false} EndedStaysEnded(c: Config, s: System, more: seq<Action>, e: nat)
    requires e in s.executions && e in s.contexts && s.contexts[e] != Live
    ensures var t := Run(c, s, more);
      e in t.executions && e in t.contexts && t.contexts[e] == s.contexts[e]
  {
    hide RuntimeTaskKey, Trim, ProofFits, FinalEffectRequest, NormalizeRuntime, Admitted;
    if more != [] { EndedStaysEnded(c, s, more[..|more| - 1], e); }
  }

  predicate BeforeCall(s: System, e: nat) {
    && e in s.executions && e !in s.adapterCalls
    && s.executions[e].pc in {Registered, Verified, Leaving(Blocked), Gone(Blocked)}
  }

  lemma BeforeCallStep(c: Config, s: System, a: Action, e: nat)
    requires Enabled(c, s, a) && e in s.contexts && s.contexts[e] != Live && BeforeCall(s, e)
    ensures BeforeCall(Step(c, s, a), e)
  {
    hide RuntimeTaskKey, Trim, ProofFits, FinalEffectRequest, NormalizeRuntime, Admitted;
  }

  lemma {:induction false} NeverCalled(c: Config, s: System, more: seq<Action>, e: nat)
    requires e in s.contexts && s.contexts[e] != Live && BeforeCall(s, e)
    ensures BeforeCall(Run(c, s, more), e)
  {
    hide Step, Enabled;
    if more != [] {
      var n := |more| - 1;
      NeverCalled(c, s, more[..n], e);
      EndedStaysEnded(c, s, more[..n], e);
      var before := Run(c, s, more[..n]);
      if Enabled(c, before, more[n]) { BeforeCallStep(c, before, more[n], e); }
    }
  }

  /** A stop accepted before the pre-call check keeps the adapter from ever being
      called, and the execution can only end blocked. */
  lemma EarlyStopPreventsCall(c: Config, actions: seq<Action>, r: string, task: string, owner: string, more: seq<Action>)
    requires var s := Run(c, INITIAL, actions);
      && Enabled(c, s, Stop(r, task, owner))
      && var e := StopTarget(s.running, r, task, owner).value;
      e in s.executions && s.executions[e].pc in {Registered, Verified}
    ensures var s := Run(c, INITIAL, actions);
      var e := StopTarget(s.running, r, task, owner).value;
      var t := Run(c, Step(c, s, Stop(r, task, owner)), more);
      && e !in t.adapterCalls && e in t.executions
      && (t.executions[e].pc.Gone? ==> t.executions[e].pc.result == Blocked)
  {
    hide RuntimeTaskKey, Trim, ProofFits, FinalEffectRequest, NormalizeRuntime, Admitted;
    RunKeepsInvariant(c, actions);
    var s := Run(c, INITIAL, actions);
    var e := StopTarget(s.running, r, task, owner).value;
    NeverCalled(c, Step(c, s, Stop(r, task, owner)), more, e);
  }

  /** The result of an execution whose context ended during the call. */
  predicate Settled(x: Execution, ended: Context) {
    match x.pc
    case Calling => true
    case Leaving(result) => result == Blocked <==> ended == Canceled
    case Gone(result) => result == Blocked <==> ended == Canceled
    case _ => false
  }

  lemma SettledStep(c: Config, s: System, a: Action, e: nat)
    requires Enabled(c, s, a) && e in s.executions && e in s.contexts && s.contexts[e] != Live
    requires Settled(s.executions[e], s.contexts[e])
    ensures e in Step(c, s, a).executions && Settled(Step(c, s, a).executions[e], s.contexts[e])
  {
    hide RuntimeTaskKey, Trim, ProofFits, FinalEffectRequest, NormalizeRuntime, Admitted;
  }

  lemma {:induction false} ResultFixed(c: Config, s: System, more: seq<Action>, e: nat)
    requires e in s.executions && e in s.contexts && s.contexts[e] != Live
    requires s.executions[e].pc.Calling?
    ensures var t := Run(c, s, more);
      e in t.executions && Settled(t.executions[e], s.contexts[e])
  {
    hide Step, Enabled;
    if more != [] {
      var n := |more| - 1;
      ResultFixed(c, s, more[..n], e);
      EndedStaysEnded(c, s, more[..n], e);
      var before := Run(c, s, more[..n]);
      if Enabled(c, before, more[n]) { SettledStep(c, before, more[n], e); }
    }
  }

  /** A stop accepted while the adapter runs forces a blocked result if and only if
      the execution's deadline had not already ended its context. */
  lemma StopDuringCallBlocksUnlessExpired(c: Config, actions: seq<Action>, r: string, task: string, owner: string, more: seq<Action>)
    requires var s := Run(c, INITIAL, actions);
      && Enabled(c, s, Stop(r, task, owner))
      && var e := StopTarget(s.running, r, task, owner).value;
      && e in s.executions && s.executions[e].pc == Calling
      && var t := Run(c, Step(c, s, Stop(r, task, owner)), more);
      e in t.executions && t.executions[e].pc.Gone?
    ensures var s := Run(c, INITIAL, actions);
      var e := StopTarget(s.running, r, task, owner).value;
      var t := Run(c, Step(c, s, Stop(r, task, owner)), more);
      t.executions[e].pc.result == Blocked <==> s.contexts[e] != DeadlineExceeded
  {
    hide RuntimeTaskKey, Trim, ProofFits, FinalEffectRequest, NormalizeRuntime, Admitted;
    var s := Run(c, INITIAL, actions);
    ResultFixed(c, Step(c, s, Stop(r, task, owner)), more, StopTarget(s.running, r, task, owner).value);
  }

  /** An execution whose context has ended and that can only end blocked. */
  predicate Doomed(x: Execution, ended: Context) {
    match x.pc
    case Registered => true
    case Verified => true
    case Cleared => ended == Canceled
    case Calling => ended == Canceled
    case Leaving(result) => result == Blocked
    case Gone(result) => result == Blocked
  }

  lemma DoomedStep(c: Config, s: System, a: Action, e: nat)
    requires Enabled(c, s, a) && e in s.executions && e in s.contexts && s.contexts[e] != Live
    requires Doomed(s.executions[e], s.contexts[e])
    ensures e in Step(c, s, a).executions && Doomed(Step(c, s, a).executions[e], s.contexts[e])
  {
    hide RuntimeTaskKey, Trim, ProofFits, FinalEffectRequest, NormalizeRuntime, Admitted;
  }

  lemma {:induction false} DoomedStays(c: Config, s: System, more: seq<Action>, e: nat)
    requires e in s.executions && e in s.contexts && s.contexts[e] != Live && Doomed(s.executions[e], s.contexts[e])
    ensures var t := Run(c, s, more);
      e in t.executions && Doomed(t.executions[e], s.contexts[e])
  {
    hide Step, Enabled, Doomed;
    if more != [] {
      var n := |more| - 1;
      DoomedStays(c, s, more[..n], e);
      EndedStaysEnded(c, s, more[..n], e);
      var before := Run(c, s, more[..n]);
      if Enabled(c, before, more[n]) { DoomedStep(c, before, more[n], e); }
    }
  }

  ghost predicate OnlyEndsBlocked(c: Config, s: System, e: nat) {
    forall more :: EndsBlocked(Run(c, s, more), e)
  }

  predicate EndsBlocked(s: System, e: nat) {
    e in s.executions && (s.executions[e].pc.Gone? ==> s.executions[e].pc.result == Blocked)
  }

  /** A stop accepted before the check after the call, wherever it lands, leaves a
      blocked result in every continuation if and only if the pre-call check is
      still to come or the deadline had not already ended the context. */
  lemma StopForcesBlockedIff(c: Config, actions: seq<Action>, r: string, task: string, owner: string)
    requires var s := Run(c, INITIAL, actions);
      && Enabled(c, s, Stop(r, task, owner))
      && var e := StopTarget(s.running, r, task, owner).value;
      e in s.executions && s.executions[e].pc in {Registered, Verified, Cleared, Calling}
    ensures var s := Run(c, INITIAL, actions);
      var e := StopTarget(s.running, r, task, owner).value;
      OnlyEndsBlocked(c, Step(c, s, Stop(r, task, owner)), e) <==>
        (s.executions[e].pc in {Registered, Verified} || s.contexts[e] != DeadlineExceeded)
  {
    hide RuntimeTaskKey, Trim, ProofFits, FinalEffectRequest, NormalizeRuntime, Admitted, Run, EndsBlocked;
    var s := Run(c, INITIAL, actions);
    var e := StopTarget(s.running, r, task, owner).value;
    var t := Step(c, s, Stop(r, task, owner));
    if s.executions[e].pc in {Registered, Verified} || s.contexts[e] != DeadlineExceeded {
      forall more ensures EndsBlocked(Run(c, t, more), e) {
        DoomedStays(c, t, more, e);
        DoomedEndsBlocked(Run(c, t, more), e, t.contexts[e]);
      }
    } else {
      var more := FinishesAfterDeadline(c, t, e);
      assert !EndsBlocked(Run(c, t, more), e);
    }
  }

  lemma DoomedEndsBlocked(s: System, e: nat, ended: Context)
    requires e in s.executions && Doomed(s.executions[e], ended)
    ensures EndsBlocked(s, e)
  {}

  lemma RunOne(c: Config, s: System, more: seq<Action>, a: Action)
    requires Enabled(c, Run(c, s, more), a)
    ensures Run(c, s, more + [a]) == Step(c, Run(c, s, more), a)
  {
    hide Step, Enabled;
    assert (more + [a])[..|more|] == more;
  }

  /** An expired call answers, and its answer stands. */
  lemma AnswerAfterDeadline(c: Config, t: System, e: nat)
    requires e in t.executions && e in t.contexts && t.contexts[e] == DeadlineExceeded && t.executions[e].pc == Calling
    ensures var u := Step(c, t, Return(e, ""));
      && Enabled(c, t, Return(e, "")) && Enabled(c, u, Leave(e)) && !EndsBlocked(Step(c, u, Leave(e)), e)
  {
    hide RuntimeTaskKey, Trim, ProofFits, FinalEffectRequest, NormalizeRuntime, Admitted, Run;
  }

  /** A cleared execution still calls its adapter. */
  lemma CallAfterClear(c: Config, t: System, e: nat)
    requires e in t.executions && e in t.contexts && t.executions[e].pc == Cleared
    ensures var u := Step(c, t, Invoke(e, false));
      && Enabled(c, t, Invoke(e, false)) && u.contexts == t.contexts
      && e in u.executions && u.executions[e].pc == Calling
  {
    hide RuntimeTaskKey, Trim, ProofFits, FinalEffectRequest, NormalizeRuntime, Admitted, Run;
  }

  lemma FinishesAfterDeadline(c: Config, s: System, e: nat) returns (more: seq<Action>)
    requires e in s.executions && e in s.contexts && s.contexts[e] == DeadlineExceeded && s.executions[e].pc in {Cleared, Calling}
    ensures !EndsBlocked(Run(c, s, more), e)
  {
    more := [];
    assert Run(c, s, more) == s;
    hide Step, Enabled, Run, EndsBlocked;
    if s.executions[e].pc == Cleared {
      CallAfterClear(c, s, e);
      RunOne(c, s, more, Invoke(e, false));
      more := more + [Invoke(e, false)];
    }
    AnswerAfterDeadline(c, Run(c, s, more), e);
    RunOne(c, s, more, Return(e, ""));
    more := more + [Return(e, "")];
    RunOne(c, s, more, Leave(e));
    more := more + [Leave(e)];
  }

  // The key of a running task

  /** Where no registered runtime has a colon in its name, an accepted stop reaches
      the very task it names if and only if the runtime it names has none either:
      the running table joins runtime and task with a colon. */
  lemma StopReachesNamedTaskIffNoColon(c: Config, actions: seq<Action>, r: string, task: string, owner: string)
    requires forall id :: id in c.adapters ==> ':' !in id
    requires Enabled(c, Run(c, INITIAL, actions), Stop(r, task, owner))
    ensures var s := Run(c, INITIAL, actions);
      var e := StopTarget(s.running, r, task, owner).value;
      && e in s.executions
      && (NormalizeRuntime(s.executions[e].runtimeId) == NormalizeRuntime(r) && Trim(s.executions[e].task.id) == Trim(task)
          <==> ':' !in NormalizeRuntime(r))
  {
    RunKeepsInvariant(c, actions);
    hide Trim, NormalizeRuntime, ProofFits, FinalEffectRequest, Admitted, Run;
    var s := Run(c, INITIAL, actions);
    var x := s.executions[StopTarget(s.running, r, task, owner).value];
    if ':' !in NormalizeRuntime(r) {
      FirstSeparatorSplits(NormalizeRuntime(x.runtimeId), Trim(x.task.id), NormalizeRuntime(r), Trim(task), ':');
    }
  }

  /** The stop cancels a live execution of another runtime and another work item,
      although the runtime it names is not registered and no registered one has a colon. */
  predicate CancelsAnother(c: Config, s: System, r: string, task: string, owner: string) {
    && (forall id :: id in c.adapters ==> ':' !in id) && NormalizeRuntime(r) !in c.adapters
    && Enabled(c, s, Stop(r, task, owner))
    && var e := StopTarget(s.running, r, task, owner).value;
       && e in s.executions && s.executions[e].pc == Registered && s.contexts[e] == Live
       && NormalizeRuntime(s.executions[e].runtimeId) != NormalizeRuntime(r) && Trim(s.executions[e].task.id) != Trim(task)
       && Step(c, s, Stop(r, task, owner)).contexts[e] == Canceled
  }

  const HERMES := Config(map["hermes" := Info(true, true, true, false)], (source: string) => true, (prompt: string) => 0)
  const WORK := Task("x:y", "p", "", "o", false, "", Proof(false, false, None))

  lemma HermesEnters(proof: Proof) returns (s: System)
    ensures s == Run(HERMES, INITIAL, [Enter(0, "hermes", WORK.(proof := proof), false)])
    ensures s.running == map[RuntimeTaskKey("hermes", "x:y") := Entry("o", 0)] && s.contexts == map[0 := Live]
    ensures s.executions == map[0 := Execution("hermes", WORK.(proof := proof), Info(true, true, true, false), Registered)]
  {
    hide Trim, Lower, NormalizeRuntime, RuntimeTaskKey;
    KeysCollide();
    var enter := Enter(0, "hermes", WORK.(proof := proof), false);
    assert Run(HERMES, INITIAL, [enter][..0]) == INITIAL;
    assert Enabled(HERMES, INITIAL, enter);
    s := Run(HERMES, INITIAL, [enter]);
    assert s == Step(HERMES, INITIAL, enter);
  }

  lemma StopCanReachAnotherTask()
    ensures exists c: Config, actions: seq<Action>, r: string, task: string, owner: string ::
      CancelsAnother(c, Run(c, INITIAL, actions), r, task, owner)
  {
    hide Run, Trim, Lower, NormalizeRuntime, RuntimeTaskKey;
    KeysCollide();
    var s := HermesEnters(WORK.proof);
    assert StopTarget(s.running, "hermes:x", "y", "o") == Some(0);
    assert CancelsAnother(HERMES, s, "hermes:x", "y", "o");
  }

  lemma KeysCollide()
    ensures RuntimeTaskKey("hermes", "x:y") == RuntimeTaskKey("hermes:x", "y")
    ensures NormalizeRuntime("hermes") == "hermes" && NormalizeRuntime("hermes:x") == "hermes:x"
    ensures Trim("x:y") == "x:y" && Trim("y") == "y" && Trim("o") == "o" && Trim("p") == "p"
  {
    assert Trim("hermes") == "hermes" && Trim("hermes:x") == "hermes:x" && Trim("x:y") == "x:y" && Trim("y") == "y";
    assert Trim("o") == "o" && Trim("p") == "p";
    assert Lower("hermes") == "hermes" && Lower("hermes:x") == "hermes:x";
  }

  /** The deadline ends the context during the call, a stop is then accepted, and
      the execution still finishes with what the adapter answered. */
  predicate FinishesAfterStop(c: Config, s: System, r: string, task: string, owner: string, more: seq<Action>) {
    && Enabled(c, s, Stop(r, task, owner))
    && var e := StopTarget(s.running, r, task, owner).value;
       && e in s.executions && s.executions[e].pc == Calling && e in s.contexts && s.contexts[e] == DeadlineExceeded
       && !EndsBlocked(Run(c, Step(c, s, Stop(r, task, owner)), more), e)
  }

  const PROVED := WORK.(proof := Proof(true, true, Some(FinalEffectRequest("hermes", WORK, Info(true, true, true, false)))))

  lemma DeadlinePasses() returns (actions: seq<Action>)
    ensures var s := Run(HERMES, INITIAL, actions);
      && s.running == map[RuntimeTaskKey("hermes", "x:y") := Entry("o", 0)] && s.contexts == map[0 := DeadlineExceeded]
      && 0 in s.executions && s.executions[0].pc == Calling
  {
    hide Trim, Lower, NormalizeRuntime, RuntimeTaskKey, Run;
    KeysCollide();
    var s := HermesEnters(PROVED.proof);
    actions := [Enter(0, "hermes", PROVED, false)];
    RunOne(HERMES, INITIAL, actions, Verify(0, true));
    actions := actions + [Verify(0, true)];
    RunOne(HERMES, INITIAL, actions, CheckLive(0));
    actions := actions + [CheckLive(0)];
    RunOne(HERMES, INITIAL, actions, Invoke(0, false));
    actions := actions + [Invoke(0, false)];
    RunOne(HERMES, INITIAL, actions, EndParent(0, true));
    actions := actions + [EndParent(0, true)];
  }

  lemma StopCanComeTooLate()
    ensures exists c: Config, actions: seq<Action>, r: string, task: string, owner: string, more: seq<Action> ::
      FinishesAfterStop(c, Run(c, INITIAL, actions), r, task, owner, more)
  {
    hide Run, Trim, Lower, NormalizeRuntime, RuntimeTaskKey, EndsBlocked;
    KeysCollide();
    var actions := DeadlinePasses();
    var s := Run(HERMES, INITIAL, actions);
    var stop := Stop("hermes", "x:y", "o");
    assert StopTarget(s.running, "hermes", "x:y", "o") == Some(0);
    var more := FinishesAfterDeadline(HERMES, Step(HERMES, s, stop), 0);
    assert FinishesAfterStop(HERMES, s, "hermes", "x:y", "o", more);
  }

  // Who may run, said over the fields

  /** The runtime is ready to execute, the task is named, owned, prompted within 50
      KiB and, where the runtime asks for it, approved by a human with a source. */
  predicate MayRun(c: Config, r: string, task: Task) {
    && Lower(Trim(r)) in c.adapters
    && var info := c.adapters[Lower(Trim(r))];
    && info.enabled && info.configured && info.executionEnabled
    && !Blank(task.id) && !Blank(task.owner) && !Blank(task.prompt) && c.size(task.prompt) <= 51_200
    && (info.requiresApproval ==> task.humanApproved && c.approvalSourceOk(Trim(task.approvalSource)))
  }

  /** An execution enters if and only if no emergency stop is on, it may run and no
      other one of its runtime and work item is running. */
  lemma EntersIff(c: Config, s: System, e: nat, r: string, task: Task, emergencyStop: bool)
    ensures Enabled(c, s, Enter(e, r, task, emergencyStop)) <==>
      e !in s.executions && !emergencyStop && MayRun(c, r, task) && Lower(Trim(r)) + ":" + Trim(task.id) !in s.running
  {
    hide Trim, Lower, Blank;
    TrimIdempotent(task.id);
    TrimIdempotent(task.owner);
    TrimIdempotent(task.prompt);
  }

  /** The proof is in order and bound to exactly this work. */
  predicate Proves(x: Execution) {
    var p := x.task.proof;
    && p.receiptValid && p.digestsValid && p.bound.Some?
    && p.bound.value.runtimeId == Lower(Trim(x.runtimeId)) && p.bound.value.taskId == Trim(x.task.id)
    && p.bound.value.owner == Trim(x.task.owner) && p.bound.value.projectKey == Trim(x.task.projectKey)
    && p.bound.value.prompt == x.task.prompt && p.bound.value.approvalSource == Trim(x.task.approvalSource)
    && p.bound.value.requiresApproval == x.info.requiresApproval
  }

  /** The check before the call passes if and only if the verifier accepts a proof that
      is in order for this very work; otherwise the execution ends blocked. */
  lemma VerifiesIff(c: Config, s: System, e: nat, accepted: bool)
    requires Enabled(c, s, Verify(e, accepted))
    ensures var t := Step(c, s, Verify(e, accepted));
      && e in t.executions
      && t.executions[e] == s.executions[e].(pc := if accepted && Proves(s.executions[e]) then Verified else Leaving(Blocked))
  {
    hide Trim, Lower;
  }

  /** The rest of an execution: it is cleared while its context lives, calls its adapter
      unless the emergency stop is on, and ends with the adapter's answer unless it
      was cancelled. */
  lemma StepsSay(c: Config, s: System, e: nat, emergencyStop: bool, output: string)
    ensures Enabled(c, s, CheckLive(e)) ==>
      Step(c, s, CheckLive(e)).executions == s.executions[e := s.executions[e].(pc := if s.contexts[e].Live? then Cleared else Leaving(Blocked))]
    ensures Enabled(c, s, Invoke(e, emergencyStop)) ==>
      var t := Step(c, s, Invoke(e, emergencyStop));
      && t.executions == s.executions[e := s.executions[e].(pc := if emergencyStop then Leaving(Blocked) else Calling)]
      && t.adapterCalls == if emergencyStop then s.adapterCalls else s.adapterCalls + [e]
    ensures Enabled(c, s, Return(e, output)) ==>
      var t := Step(c, s, Return(e, output));
      t.executions == s.executions[e := s.executions[e].(pc := Leaving(if s.contexts[e].Canceled? then Blocked else Finished(output)))]
  {
    hide ProofFits, FinalEffectRequest, RuntimeTaskKey, Admitted;
  }

  ghost predicate EntriesMayRun(c: Config, s: System) {
    forall e :: e in s.executions ==>
      var x := s.executions[e];
      MayRun(c, x.runtimeId, x.task) && x.info == c.adapters[Lower(Trim(x.runtimeId))]
  }

  lemma StepKeepsMayRun(c: Config, s: System, a: Action)
    requires Enabled(c, s, a) && EntriesMayRun(c, s)
    ensures EntriesMayRun(c, Step(c, s, a))
  {
    if a.Enter? { EntersIff(c, s, a.execution, a.runtimeId, a.task, a.emergencyStop); }
    hide Trim, Lower, MayRun, ProofFits, FinalEffectRequest, RuntimeTaskKey;
  }

  lemma {:induction false} RunKeepsMayRun(c: Config, actions: seq<Action>)
    ensures EntriesMayRun(c, Run(c, INITIAL, actions))
  {
    hide Step, Enabled, MayRun;
    if actions != [] {
      var n := |actions| - 1;
      RunKeepsMayRun(c, actions[..n]);
      if Enabled(c, Run(c, INITIAL, actions[..n]), actions[n]) { StepKeepsMayRun(c, Run(c, INITIAL, actions[..n]), actions[n]); }
    }
  }

  /** In every run an adapter is called only for an execution that may run and that
      carries a proof in order for this very work. */
  lemma CalledMayRun(c: Config, actions: seq<Action>, e: nat)
    requires e in Run(c, INITIAL, actions).adapterCalls
    ensures var s := Run(c, INITIAL, actions);
      && e in s.executions && MayRun(c, s.executions[e].runtimeId, s.executions[e].task) && Proves(s.executions[e])
  {
    hide Run, MayRun, TableExact, Trim, Lower;
    RunKeepsInvariant(c, actions);
    RunKeepsMayRun(c, actions);
  }

  /** What a stop request is told: who it misses, and why. */
  lemma StopAnswers(running: map<string, Entry>, adapters: set<string>, r: string, task: string, owner: string)
    ensures var answer, key := StopAnswer(running, adapters, r, task, owner), Lower(Trim(r)) + ":" + Trim(task);
      var named := !Blank(owner) && !Blank(task);
      && (answer == OwnerRequired <==> Blank(owner)) && (answer == TaskRequired <==> !Blank(owner) && Blank(task))
      && (answer == Stopping <==> named && key in running && running[key].owner == Trim(owner))
      && (answer == OtherOwner <==> named && key in running && running[key].owner != Trim(owner))
      && (answer == NotTracked <==> named && key !in running && Lower(Trim(r)) in adapters)
      && (answer == NotRegistered <==> named && key !in running && Lower(Trim(r)) !in adapters)
  {
    hide Trim, Lower, Blank;
    TrimIdempotent(owner);
    TrimIdempotent(task);
  }

  // Binding an authorization that was consumed before

  /** What binding is given of the consumed authorization: whether the receipt's ID
      and its two stored digests are well formed once trimmed and lower-cased. */
  datatype Consumed = Consumed(receiptValid: bool, digestsValid: bool)

  /** The task with a proof bound to it, or none if something is missing. */
  function BindConsumedAuthorizationProof(c: Config, runtimeId: string, task: Task, authority: Consumed): Option<Task> {
    var id := NormalizeRuntime(runtimeId);
    if id !in c.adapters || Trim(task.id) == "" || Trim(task.owner) == "" || Trim(task.prompt) == "" then None
    else
      var request := FinalEffectRequest(id, task, c.adapters[id]);
      var proof := Proof(authority.receiptValid, authority.digestsValid, Some(request));
      if ProofFits(request, proof) then Some(task.(proof := proof)) else None
  }

  /** Both are the same work for the authorization: nothing that it covers differs. */
  predicate SameWork(r: string, task: Task, info: Info, other: string, changed: Task, now: Info) {
    && NormalizeRuntime(other) == NormalizeRuntime(r) && Trim(changed.id) == Trim(task.id) && Trim(changed.owner) == Trim(task.owner)
    && Trim(changed.projectKey) == Trim(task.projectKey) && changed.prompt == task.prompt
    && Trim(changed.approvalSource) == Trim(task.approvalSource) && now.requiresApproval == info.requiresApproval
  }

  lemma NormalizeRuntimeIdempotent(r: string)
    ensures NormalizeRuntime(NormalizeRuntime(r)) == NormalizeRuntime(r)
  {
    TrimIdempotent(r);
    LowerOfTrimmed(Trim(r));
  }

  lemma LowerOfTrimmed(s: string)
    requires Trim(s) == s
    ensures Trim(Lower(s)) == Lower(s) && Lower(Lower(s)) == Lower(s)
  {
    TrimLeftEnds(s);
    TrimRightEnds(TrimLeft(s));
    var l := Lower(s);
    if s != "" {
      assert IsBlank(l[0]) <==> IsBlank(s[0]);
      assert IsBlank(l[|l| - 1]) <==> IsBlank(s[|s| - 1]);
    }
    assert Lower(l) == l;
  }

  /** Binding succeeds if and only if the runtime is known, the task is named, owned and
      prompted, and the consumed authorization is well formed; only the proof changes. */
  lemma BindsIff(c: Config, r: string, task: Task, authority: Consumed)
    ensures var bound := BindConsumedAuthorizationProof(c, r, task, authority);
      && (bound.Some? <==>
            && Lower(Trim(r)) in c.adapters && !Blank(task.id) && !Blank(task.owner) && !Blank(task.prompt)
            && authority.receiptValid && authority.digestsValid)
      && (bound.Some? ==> bound.value == task.(proof := bound.value.proof))
  {
    hide Trim, Lower, Blank;
    TrimIdempotent(task.id);
    TrimIdempotent(task.owner);
    TrimIdempotent(task.prompt);
  }

  /** The round trip: a bound proof passes the check before the call, for whatever
      task and runtime it is presented with, if and only if nothing that the
      authorization covers has changed since it was bound. */
  lemma BoundProofFitsIff(c: Config, r: string, task: Task, authority: Consumed, other: string, changed: Task, now: Info)
    requires var bound := BindConsumedAuthorizationProof(c, r, task, authority);
      bound.Some? && changed.proof == bound.value.proof
    ensures NormalizeRuntime(r) in c.adapters
    ensures ProofFits(FinalEffectRequest(other, changed, now), changed.proof) <==>
      SameWork(r, task, c.adapters[NormalizeRuntime(r)], other, changed, now)
  {
    hide NormalizeRuntime, Trim;
    NormalizeRuntimeIdempotent(r);
  }

  /** So in every run an execution that carries a bound proof has its adapter called
      only for the very work that was bound. */
  lemma BoundProofCallsOnlyItsWork(c: Config, actions: seq<Action>, e: nat, r: string, task: Task, authority: Consumed)
    requires var s := Run(c, INITIAL, actions);
      var bound := BindConsumedAuthorizationProof(c, r, task, authority);
      e in s.adapterCalls && e in s.executions && bound.Some? && s.executions[e].task.proof == bound.value.proof
    ensures var x := Run(c, INITIAL, actions).executions[e];
      NormalizeRuntime(r) in c.adapters && SameWork(r, task, c.adapters[NormalizeRuntime(r)], x.runtimeId, x.task, x.info)
  {
    hide Run, NormalizeRuntime, Trim, SameWork, ProofFits, FinalEffectRequest, TableExact, BindConsumedAuthorizationProof;
    RunKeepsInvariant(c, actions);
    var x := Run(c, INITIAL, actions).executions[e];
    BoundProofFitsIff(c, r, task, authority, x.runtimeId, x.task, x.info);
  }

  // The bounded writer

  datatype Writer<T> = Writer(kept: seq<T>, remaining: int)

  function WriteOne<T>(w: Writer<T>, p: seq<T>): Writer<T> {
    if w.remaining <= 0 then w
    else
      var part := if |p| > w.remaining then p[..w.remaining] else p;
      Writer(w.kept + part, w.remaining - |part|)
  }

  function WriteAll<T>(limit: int, chunks: seq<seq<T>>): Writer<T> {
    if chunks == [] then Writer([], limit)
    else WriteOne(WriteAll(limit, chunks[..|chunks| - 1]), chunks[|chunks| - 1])
  }

  /** Keeps the first bytes written, up to a limit, and reports every write as complete. */
  class LimitedWriter<T> {
    var kept: seq<T>
    var remaining: int

    function State(): Writer<T>
      reads this
    {
      Writer(kept, remaining)
    }

    constructor (limit: int)
      ensures State() == Writer([], limit)
    {
      kept, remaining := [], limit;
    }

    method Write(p: seq<T>) returns (n: nat)
      modifies this
      ensures State() == WriteOne(old(State()), p) && n == |p|
    {
      n := |p|;
      if remaining <= 0 { return; }
      var part := if |p| > remaining then p[..remaining] else p;
      kept := kept + part;
      remaining := remaining - |part|;
    }
  }

  function Flatten<T>(chunks: seq<seq<T>>): seq<T> {
    if chunks == [] then [] else Flatten(chunks[..|chunks| - 1]) + chunks[|chunks| - 1]
  }

  function Bounded(limit: int, total: nat): nat {
    if limit <= 0 then 0 else if limit < total then limit else total
  }

  /** However the bytes are cut into writes, the writer ends up with the first
      limit bytes of all of them and no others. */
  lemma {:induction false} KeepsFirstBytes<T>(limit: int, chunks: seq<seq<T>>)
    ensures var all := Flatten(chunks);
      WriteAll(limit, chunks).kept == all[..Bounded(limit, |all|)]
    ensures WriteAll(limit, chunks).remaining == limit - |WriteAll(limit, chunks).kept|
  {
    if chunks != [] {
      var n := |chunks| - 1;
      KeepsFirstBytes(limit, chunks[..n]);
      assert Flatten(chunks) == Flatten(chunks[..n]) + chunks[n];
    }
  }
}
