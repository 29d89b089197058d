/** The lifecycle owner of one renderer (src/body/bodyRenderer.ts).

    Each step is the code between two suspension points of `mount`, `render` or
    `disposeAndWait`; the renderer is free to succeed or fail and to take any time.
    Promises are modelled by what they wait for: a mount by its number, the render tail by
    how many accepted renders it covers. */
module RendererHost {
  import opened Common

  type Element = nat
  /** A call of `render`, numbered in call order. */
  type Job = nat

  datatype Phase = Unmounted | Mounting | Mounted | Disposed

  datatype Disposal =
    | NotDisposing
    | AwaitingMount(mount: nat)
    | AwaitingTail(upTo: nat)
    | Invoked
    | Settled

  datatype InFlight = InFlight(mount: nat, host: Element)

  /** What crosses the boundary to the renderer, and the fate of each render call. */
  datatype Event =
    | MountCalled(host: Element)
    | MountDone(ok: bool)
    | RenderCalled(job: Job)
    | RenderDone(job: Job, ok: bool)
    | DisposeCalled
    | DisposeDone
    | Accepted(job: Job)
    | Rejected(job: Job)
    | Dropped(job: Job)

  datatype State = State(
    phase: Phase,
    host: Option<Element>,
    pendingMount: Option<nat>,
    pendingMountHost: Option<Element>,
    inFlight: Option<InFlight>,
    outcomes: map<nat, bool>,
    waiters: map<Job, nat>,
    queue: seq<Job>,
    current: Option<Job>,
    pendingRenderCount: int,
    accepted: nat,
    settled: nat,
    disposal: Disposal,
    calls: nat,
    mounts: nat,
    trace: seq<Event>)

  function Initial(): State
  {
    State(Unmounted, None, None, None, None, map[], map[], [], None, 0, 0, 0, NotDisposing, 0, 0, [])
  }

  // ---- Mount --------------------------------------------------------------------------------

  datatype MountVerdict = MountRefused | AlreadyMounted | Joins(mount: nat) | Starts

  function MountOutcome(s: State, host: Element): MountVerdict
  {
    match s.phase
    case Disposed => MountRefused
    case Mounted => if s.host == Some(host) then AlreadyMounted else MountRefused
    case Mounting => if s.pendingMountHost == Some(host) && s.pendingMount.Some? then Joins(s.pendingMount.value) else MountRefused
    case Unmounted => Starts
  }

  function CallMount(s: State, host: Element): State
  {
    if s.phase.Unmounted? then
      s.(phase := Mounting, pendingMountHost := Some(host), pendingMount := Some(s.mounts),
         inFlight := Some(InFlight(s.mounts, host)), mounts := s.mounts + 1,
         trace := s.trace + [MountCalled(host)])
    else s
  }

  function MountSettles(s: State, ok: bool): State
    requires s.inFlight.Some?
  {
    var live := !s.phase.Disposed?;
    s.(inFlight := None,
       outcomes := s.outcomes[s.inFlight.value.mount := ok],
       host := if live && ok then Some(s.inFlight.value.host) else s.host,
       phase := if !live then s.phase else if ok then Mounted else Unmounted,
       pendingMount := if live && !ok then None else s.pendingMount,
       pendingMountHost := if live && !ok then None else s.pendingMountHost,
       trace := s.trace + [MountDone(ok)])
  }

  // ---- Render -------------------------------------------------------------------------------

  /** Appends a call to the delivery chain, or refuses it. */
  function Enqueue(s: State, job: Job, admit: bool): State
  {
    s.(queue := if admit then s.queue + [job] else s.queue,
       pendingRenderCount := if admit then s.pendingRenderCount + 1 else s.pendingRenderCount,
       accepted := if admit then s.accepted + 1 else s.accepted,
       trace := s.trace + [if admit then Accepted(job) else Rejected(job)])
  }

  function CallRender(s: State): State
  {
    if s.phase.Mounting? && s.pendingMount.Some? then
      s.(waiters := s.waiters[s.calls := s.pendingMount.value], calls := s.calls + 1)
    else
      Enqueue(s, s.calls, s.phase.Mounted?).(calls := s.calls + 1)
  }

  predicate WaiterAdmits(s: State, job: Job)
    requires job in s.waiters && s.waiters[job] in s.outcomes
  {
    s.outcomes[s.waiters[job]] && s.phase.Mounted?
  }

  /** A call made while mounting continues once its mount has settled. */
  function WaiterResumes(s: State, job: Job): State
    requires job in s.waiters && s.waiters[job] in s.outcomes
  {
    Enqueue(s, job, WaiterAdmits(s, job)).(waiters := s.waiters - {job})
  }

  /** The next delivery of the chain; after disposal it fails without reaching the renderer. */
  function JobStarts(s: State): State
    requires s.current.None? && s.queue != []
  {
    var job := s.queue[0];
    var live := !s.phase.Disposed?;
    s.(queue := s.queue[1..],
       current := if live then Some(job) else None,
       pendingRenderCount := if live then s.pendingRenderCount else s.pendingRenderCount - 1,
       settled := if live then s.settled else s.settled + 1,
       trace := s.trace + [if live then RenderCalled(job) else Dropped(job)])
  }

  function JobSettles(s: State, ok: bool): State
    requires s.current.Some?
  {
    s.(current := None, pendingRenderCount := s.pendingRenderCount - 1, settled := s.settled + 1,
       trace := s.trace + [RenderDone(s.current.value, ok)])
  }

  // ---- Dispose ------------------------------------------------------------------------------

  /** `finishDisposal` after the in-flight mount: wait for the render tail if needed, then dispose. */
  function FinishDisposal(s: State): State
  {
    s.(disposal := if s.pendingRenderCount > 0 then AwaitingTail(s.accepted) else Invoked,
       trace := if s.pendingRenderCount > 0 then s.trace else s.trace + [DisposeCalled])
  }

  function CallDispose(s: State): State
  {
    if s.phase.Disposed? then s
    else if s.phase.Mounting? && s.pendingMount.Some? then
      s.(phase := Disposed, host := None, disposal := AwaitingMount(s.pendingMount.value),
         pendingMount := None, pendingMountHost := None)
    else
      FinishDisposal(s.(phase := Disposed, host := None))
  }

  predicate DisposalReady(s: State) {
    || (s.disposal.AwaitingMount? && s.disposal.mount in s.outcomes)
    || (s.disposal.AwaitingTail? && s.settled >= s.disposal.upTo)
  }

  function DisposalResumes(s: State): State
    requires DisposalReady(s)
  {
    if s.disposal.AwaitingMount? then FinishDisposal(s)
    else s.(disposal := Invoked, trace := s.trace + [DisposeCalled])
  }

  function DisposeSettles(s: State): State
  {
    s.(disposal := Settled, trace := s.trace + [DisposeDone])
  }

  // ---- Runs ---------------------------------------------------------------------------------

  datatype Label =
    | Mount(host: Element)
    | MountSettle(ok: bool)
    | Render
    | WaiterResume(job: Job)
    | JobStart
    | JobSettle(ok: bool)
    | Dispose
    | DisposalResume
    | DisposeSettle

  predicate Enabled(s: State, l: Label) {
    match l
    case Mount(_) => true
    case MountSettle(_) => s.inFlight.Some?
    case Render => true
    case WaiterResume(job) => job in s.waiters && s.waiters[job] in s.outcomes
    case JobStart => s.current.None? && s.queue != []
    case JobSettle(_) => s.current.Some?
    case Dispose => true
    case DisposalResume => DisposalReady(s)
    case DisposeSettle => s.disposal.Invoked?
  }

  function Step(s: State, l: Label): State
    requires Enabled(s, l)
  {
    match l
    case Mount(host) => CallMount(s, host)
    case MountSettle(ok) => MountSettles(s, ok)
    case Render => CallRender(s)
    case WaiterResume(job) => WaiterResumes(s, job)
    case JobStart => JobStarts(s)
    case JobSettle(ok) => JobSettles(s, ok)
    case Dispose => CallDispose(s)
    case DisposalResume => DisposalResumes(s)
    case DisposeSettle => DisposeSettles(s)
  }

  /** Labels that are not enabled leave the host alone, so any sequence of labels is a run. */
  function Run(labels: seq<Label>): State
  {
    if labels == [] then Initial()
    else
      var s := Run(labels[..|labels| - 1]);
      var l := labels[|labels| - 1];
      if Enabled(s, l) then Step(s, l) else s
  }

  // ---- What the renderer may rely on ----------------------------------------------------------

  datatype Call = MountCall | RenderCall(job: Job) | DisposeCall

  /** The call discipline seen from the renderer.  `legal` is false once it was broken. */
  datatype Discipline = Discipline(legal: bool, mounted: bool, busy: Option<Call>, disposing: bool)

  function Observe(d: Discipline, e: Event): Discipline
  {
    match e
    case MountCalled(_) =>
      d.(legal := d.legal && d.busy.None? && !d.mounted && !d.disposing, busy := Some(MountCall))
    case MountDone(ok) => d.(legal := d.legal && d.busy == Some(MountCall), busy := None, mounted := ok)
    case RenderCalled(job) =>
      d.(legal := d.legal && d.busy.None? && d.mounted && !d.disposing, busy := Some(RenderCall(job)))
    case RenderDone(job, _) => d.(legal := d.legal && d.busy == Some(RenderCall(job)), busy := None)
    case DisposeCalled => d.(legal := d.legal && d.busy.None? && !d.disposing, busy := Some(DisposeCall), disposing := true)
    case DisposeDone => d.(legal := d.legal && d.busy == Some(DisposeCall), busy := None)
    case _ => d
  }

  function Observed(trace: seq<Event>): Discipline
  {
    if trace == [] then Discipline(true, false, None, false)
    else Observe(Observed(trace[..|trace| - 1]), trace[|trace| - 1])
  }

  /** The jobs of the events a selector picks, in trace order. */
  function JobsOf(trace: seq<Event>, kind: Kind): seq<Job>
  {
    if trace == [] then []
    else
      var e := trace[|trace| - 1];
      JobsOf(trace[..|trace| - 1], kind) + if Picks(kind, e) then [e.job] else []
  }

  datatype Kind = AcceptedJobs | SettledJobs | DeliveredJobs | DroppedJobs

  predicate Picks(kind: Kind, e: Event)
    ensures Picks(kind, e) ==> e.Accepted? || e.RenderDone? || e.Dropped? || e.RenderCalled?
  {
    match kind
    case AcceptedJobs => e.Accepted?
    case SettledJobs => e.RenderDone? || e.Dropped?
    case DeliveredJobs => e.RenderCalled?
    case DroppedJobs => e.Dropped?
  }
}

module RendererHostProof {
  import opened Common
  import opened RendererHost

  lemma Extends(trace: seq<Event>, e: Event)
    ensures Observed(trace + [e]) == Observe(Observed(trace), e)
    ensures JobsOf(trace + [e], AcceptedJobs) == if Picks(AcceptedJobs, e) then JobsOf(trace, AcceptedJobs) + [e.job] else JobsOf(trace, AcceptedJobs)
    ensures JobsOf(trace + [e], SettledJobs) == if Picks(SettledJobs, e) then JobsOf(trace, SettledJobs) + [e.job] else JobsOf(trace, SettledJobs)
    ensures JobsOf(trace + [e], DeliveredJobs) == if Picks(DeliveredJobs, e) then JobsOf(trace, DeliveredJobs) + [e.job] else JobsOf(trace, DeliveredJobs)
    ensures JobsOf(trace + [e], DroppedJobs) == if Picks(DroppedJobs, e) then JobsOf(trace, DroppedJobs) + [e.job] else JobsOf(trace, DroppedJobs)
  {
    assert (trace + [e])[..|trace|] == trace;
  }

  function BusyOf(s: State): Option<Call>
  {
    if s.inFlight.Some? then Some(MountCall)
    else if s.current.Some? then Some(RenderCall(s.current.value))
    else if s.disposal.Invoked? then Some(DisposeCall)
    else None
  }

  /** How the phases, the in-flight work and the disposal go together. */
  predicate Phases(s: State) {
    && (s.phase.Mounting? ==> s.inFlight.Some? && s.pendingMount == Some(s.inFlight.value.mount))
    && (s.phase.Unmounted? || s.phase.Mounted? ==> s.inFlight.None?)
    && (s.phase.Disposed? <==> !s.disposal.NotDisposing?)
    && (s.inFlight.Some? ==> s.inFlight.value.mount !in s.outcomes && s.inFlight.value.mount < s.mounts)
    && (s.inFlight.Some? && s.phase.Disposed? ==> s.disposal == AwaitingMount(s.inFlight.value.mount))
    && (s.disposal.AwaitingMount? ==> (s.inFlight.None? <==> s.disposal.mount in s.outcomes))
    && (forall m :: m in s.outcomes ==> m < s.mounts)
  }

  /** The delivery chain, counted. */
  predicate Chain(s: State) {
    && s.pendingRenderCount == |s.queue| + (if s.current.Some? then 1 else 0)
    && s.accepted == s.settled + s.pendingRenderCount
    && (s.phase.Unmounted? || s.phase.Mounting? ==> s.pendingRenderCount == 0)
    && (s.disposal.AwaitingMount? ==> s.pendingRenderCount == 0)
    && (s.disposal.AwaitingTail? ==> s.disposal.upTo == s.accepted)
    && (s.disposal.Invoked? || s.disposal.Settled? ==> s.pendingRenderCount == 0)
  }

  predicate Seen(s: State, d: Discipline) {
    && d.legal
    && d.busy == BusyOf(s)
    && d.disposing == (s.disposal.Invoked? || s.disposal.Settled?)
    && (s.phase.Mounted? ==> d.mounted)
    && (s.phase.Unmounted? || s.phase.Mounting? ==> !d.mounted)
    && (s.queue != [] || s.current.Some? ==> d.mounted)
  }

  function AsSeq(current: Option<Job>): seq<Job>
  {
    if current.Some? then [current.value] else []
  }

  /** Accepted renders are settled, in progress or queued, in that order; the started ones were
      delivered to the renderer, except for those dropped after disposal, which come last. */
  predicate InOrder(accepted: seq<Job>, settled: seq<Job>, delivered: seq<Job>, dropped: seq<Job>,
                    current: Option<Job>, queue: seq<Job>, disposed: bool)
  {
    && accepted == settled + AsSeq(current) + queue
    && delivered + dropped == settled + AsSeq(current)
    && (!disposed || current.Some? ==> dropped == [])
  }

  predicate Ordered(s: State) {
    InOrder(JobsOf(s.trace, AcceptedJobs), JobsOf(s.trace, SettledJobs), JobsOf(s.trace, DeliveredJobs),
            JobsOf(s.trace, DroppedJobs), s.current, s.queue, s.phase.Disposed?)
  }

  predicate Good(s: State) {
    Phases(s) && Chain(s) && Seen(s, Observed(s.trace)) && Ordered(s)
  }

  lemma {:induction false} StepKeepsShape(s: State, l: Label)
    requires Phases(s) && Chain(s) && Enabled(s, l)
    ensures Phases(Step(s, l)) && Chain(Step(s, l))
  {
    match l
    case Mount(host) =>
    case MountSettle(ok) =>
    case Render =>
    case WaiterResume(job) =>
    case JobStart =>
    case JobSettle(ok) =>
    case Dispose =>
    case DisposalResume =>
    case DisposeSettle =>
  }

  lemma {:induction false} MountKeepsSeen(s: State, l: Label)
    requires Phases(s) && Chain(s) && Seen(s, Observed(s.trace)) && Enabled(s, l) && (l.Mount? || l.MountSettle?)
    ensures Seen(Step(s, l), Observed(Step(s, l).trace))
  {
    hide Observed, JobsOf;
    match l
    case Mount(host) => Extends(s.trace, MountCalled(host));
    case MountSettle(ok) => Extends(s.trace, MountDone(ok));
  }

  lemma {:induction false} RenderKeepsSeen(s: State, l: Label)
    requires Phases(s) && Chain(s) && Seen(s, Observed(s.trace)) && Enabled(s, l) && (l.Render? || l.WaiterResume? || l.JobStart? || l.JobSettle?)
    ensures Seen(Step(s, l), Observed(Step(s, l).trace))
  {
    hide Observed, JobsOf;
    match l
    case Render => Extends(s.trace, if s.phase.Mounted? then Accepted(s.calls) else Rejected(s.calls));
    case WaiterResume(job) => Extends(s.trace, if WaiterAdmits(s, job) then Accepted(job) else Rejected(job));
    case JobStart => Extends(s.trace, if s.phase.Disposed? then Dropped(s.queue[0]) else RenderCalled(s.queue[0]));
    case JobSettle(ok) => Extends(s.trace, RenderDone(s.current.value, ok));
  }

  lemma {:induction false} DisposeKeepsSeen(s: State, l: Label)
    requires Phases(s) && Chain(s) && Seen(s, Observed(s.trace)) && Enabled(s, l) && (l.Dispose? || l.DisposalResume? || l.DisposeSettle?)
    ensures Seen(Step(s, l), Observed(Step(s, l).trace))
  {
    hide Observed, JobsOf;
    Extends(s.trace, RendererHost.Event.DisposeCalled);
    Extends(s.trace, DisposeDone);
  }

  lemma {:induction false} StepKeepsSeen(s: State, l: Label)
    requires Phases(s) && Chain(s) && Seen(s, Observed(s.trace)) && Enabled(s, l)
    ensures Seen(Step(s, l), Observed(Step(s, l).trace))
  {
    hide Observed, JobsOf, Step, Enabled, Seen;
    if l.Mount? || l.MountSettle? {
      MountKeepsSeen(s, l);
    } else if l.Dispose? || l.DisposalResume? || l.DisposeSettle? {
      DisposeKeepsSeen(s, l);
    } else {
      RenderKeepsSeen(s, l);
    }
  }

  lemma StartKeepsOrder(acc: seq<Job>, done: seq<Job>, del: seq<Job>, dropped: seq<Job>, queue: seq<Job>, disposed: bool)
    requires queue != [] && InOrder(acc, done, del, dropped, None, queue, disposed)
    ensures !disposed ==> InOrder(acc, done, del + [queue[0]], dropped, Some(queue[0]), queue[1..], disposed)
    ensures disposed ==> InOrder(acc, done + [queue[0]], del, dropped + [queue[0]], None, queue[1..], disposed)
  {
    assert acc == done + queue && queue == [queue[0]] + queue[1..];
    assert acc == (done + [queue[0]]) + queue[1..];
    assert done + [] == done && del + dropped == done;
    if !disposed {
      assert del + [queue[0]] + dropped == done + [queue[0]];
    } else {
      assert del + (dropped + [queue[0]]) == done + [queue[0]];
    }
  }

  lemma EnqueueKeepsOrder(acc: seq<Job>, done: seq<Job>, del: seq<Job>, dropped: seq<Job>, current: Option<Job>,
                          queue: seq<Job>, disposed: bool, job: Job)
    requires InOrder(acc, done, del, dropped, current, queue, disposed)
    ensures InOrder(acc + [job], done, del, dropped, current, queue + [job], disposed)
  {
  }

  lemma SettleKeepsOrder(acc: seq<Job>, done: seq<Job>, del: seq<Job>, dropped: seq<Job>, job: Job,
                         queue: seq<Job>, disposed: bool)
    requires InOrder(acc, done, del, dropped, Some(job), queue, disposed)
    ensures InOrder(acc, done + [job], del, dropped, None, queue, disposed)
  {
    assert done + [job] + [] == done + [job];
  }

  lemma DisposeKeepsOrder(acc: seq<Job>, done: seq<Job>, del: seq<Job>, dropped: seq<Job>, current: Option<Job>, queue: seq<Job>)
    ensures InOrder(acc, done, del, dropped, current, queue, false) ==> InOrder(acc, done, del, dropped, current, queue, true)
  {
  }

  lemma {:induction false} StepKeepsOrder(s: State, l: Label)
    requires Phases(s) && Chain(s) && Ordered(s) && Enabled(s, l)
    ensures Ordered(Step(s, l))
  {
    hide Observed, JobsOf, InOrder;
    var acc, done := JobsOf(s.trace, AcceptedJobs), JobsOf(s.trace, SettledJobs);
    var del, dropped := JobsOf(s.trace, DeliveredJobs), JobsOf(s.trace, DroppedJobs);
    var disposed := s.phase.Disposed?;
    match l
    case Mount(host) => Extends(s.trace, MountCalled(host));
    case MountSettle(ok) => Extends(s.trace, MountDone(ok));
    case Render =>
      Extends(s.trace, if s.phase.Mounted? then Accepted(s.calls) else Rejected(s.calls));
      EnqueueKeepsOrder(acc, done, del, dropped, s.current, s.queue, disposed, s.calls);
    case WaiterResume(job) =>
      Extends(s.trace, if WaiterAdmits(s, job) then Accepted(job) else Rejected(job));
      EnqueueKeepsOrder(acc, done, del, dropped, s.current, s.queue, disposed, job);
    case JobStart =>
      Extends(s.trace, if disposed then Dropped(s.queue[0]) else RenderCalled(s.queue[0]));
      StartKeepsOrder(acc, done, del, dropped, s.queue, disposed);
    case JobSettle(ok) =>
      Extends(s.trace, RenderDone(s.current.value, ok));
      SettleKeepsOrder(acc, done, del, dropped, s.current.value, s.queue, disposed);
    case Dispose =>
      Extends(s.trace, RendererHost.Event.DisposeCalled);
      DisposeKeepsOrder(acc, done, del, dropped, s.current, s.queue);
    case DisposalResume => Extends(s.trace, RendererHost.Event.DisposeCalled);
    case DisposeSettle => Extends(s.trace, DisposeDone);
  }

  lemma {:induction false} StepKeepsGood(s: State, l: Label)
    requires Good(s) && Enabled(s, l)
    ensures Good(Step(s, l))
  {
    StepKeepsShape(s, l);
    StepKeepsSeen(s, l);
    StepKeepsOrder(s, l);
  }

  lemma InitiallyGood()
    ensures Good(Initial())
  {
  }

  lemma {:induction false} AlwaysGood(labels: seq<Label>)
    ensures Good(Run(labels))
  {
    hide Good;
    InitiallyGood();
    if labels != [] {
      var s := Run(labels[..|labels| - 1]);
      var l := labels[|labels| - 1];
      AlwaysGood(labels[..|labels| - 1]);
      if Enabled(s, l) {
        StepKeepsGood(s, l);
      }
    }
  }

  // ---- Main results ---------------------------------------------------------------------------

  /** Main result: over every run the renderer is mounted at most once successfully, rendered only
      after that and before its disposal, one operation at a time, and disposed at most once. */
  lemma {:induction false} RendererIsSerialized(labels: seq<Label>)
    ensures Observed(Run(labels).trace).legal
  {
    AlwaysGood(labels);
  }

  /** Main result: deliveries follow acceptance order even when some fail, and
      `pendingRenderCount` is the number of accepted renders that have not settled. */
  lemma {:induction false} DeliveriesFollowAcceptance(labels: seq<Label>)
    ensures var s := Run(labels);
            && JobsOf(s.trace, DeliveredJobs) <= JobsOf(s.trace, AcceptedJobs)
            && JobsOf(s.trace, SettledJobs) <= JobsOf(s.trace, AcceptedJobs)
            && s.pendingRenderCount == |JobsOf(s.trace, AcceptedJobs)| - |JobsOf(s.trace, SettledJobs)|
  {
    AlwaysGood(labels);
    var s := Run(labels);
    var del, dropped := JobsOf(s.trace, DeliveredJobs), JobsOf(s.trace, DroppedJobs);
    assert JobsOf(s.trace, AcceptedJobs) == del + (dropped + s.queue);
  }

  function Disposals(trace: seq<Event>): nat
  {
    if trace == [] then 0
    else Disposals(trace[..|trace| - 1]) + if trace[|trace| - 1] == RendererHost.Event.DisposeCalled then 1 else 0
  }

  lemma {:induction false} DisposalsOf(trace: seq<Event>)
    requires Observed(trace).legal
    ensures Disposals(trace) == if Observed(trace).disposing then 1 else 0
  {
    if trace != [] {
      DisposalsOf(trace[..|trace| - 1]);
    }
  }

  /** Main result: once `disposeAndWait` has settled, the renderer was disposed exactly once and
      every accepted render had settled. */
  lemma {:induction false} DisposedExactlyOnce(labels: seq<Label>)
    ensures var s := Run(labels);
            && Disposals(s.trace) <= 1
            && (s.disposal.Settled? ==>
                  && Disposals(s.trace) == 1
                  && JobsOf(s.trace, AcceptedJobs) == JobsOf(s.trace, SettledJobs)
                  && s.inFlight.None?)
  {
    AlwaysGood(labels);
    DisposalsOf(Run(labels).trace);
  }

  /** A legal trace read by position: nothing reaches the renderer once its disposal was invoked. */
  lemma {:induction false} NothingAfterDisposal(trace: seq<Event>, k: nat, i: nat)
    requires Observed(trace).legal && k < i < |trace| && trace[k] == RendererHost.Event.DisposeCalled
    ensures trace[i].DisposeDone? || trace[i].Accepted? || trace[i].Rejected? || trace[i].Dropped?
  {
    var before := trace[..|trace| - 1];
    if i < |trace| - 1 {
      NothingAfterDisposal(before, k, i);
    } else {
      DisposingAfter(before, k);
    }
  }

  lemma {:induction false} DisposingAfter(trace: seq<Event>, k: nat)
    requires Observed(trace).legal && k < |trace| && trace[k] == RendererHost.Event.DisposeCalled
    ensures var d := Observed(trace); d.disposing && (d.busy.None? || d.busy == Some(Call.DisposeCall))
  {
    if k < |trace| - 1 {
      DisposingAfter(trace[..|trace| - 1], k);
    }
  }

  /** A legal trace read by position: a render is preceded by a successful mount, and by the
      settlement of every earlier render. */
  lemma {:induction false} RenderIsFramed(trace: seq<Event>, i: nat)
    requires Observed(trace).legal && i < |trace| && trace[i].RenderCalled?
    ensures MountDone(true) in trace[..i]
    ensures forall k :: 0 <= k < i && trace[k].RenderCalled? ==> SettledBetween(trace, k, i)
  {
    var before := trace[..|trace| - 1];
    if i < |trace| - 1 {
      RenderIsFramed(before, i);
      assert before[..i] == trace[..i];
      forall k | 0 <= k < i && trace[k].RenderCalled? ensures SettledBetween(trace, k, i) {
        assert before[k] == trace[k] && SettledBetween(before, k, i);
      }
    } else {
      MountedAfter(before);
      forall k | 0 <= k < i && trace[k].RenderCalled? ensures SettledBetween(trace, k, i) {
        RenderingOrSettled(before, k);
        assert SettledBetween(before, k, i);
      }
    }
  }

  predicate SettledBetween(trace: seq<Event>, k: nat, i: nat)
    requires k < i <= |trace| && trace[k].RenderCalled?
  {
    exists d :: k < d < i && trace[d].RenderDone? && trace[d].job == trace[k].job
  }

  lemma {:induction false} MountedAfter(trace: seq<Event>)
    requires Observed(trace).mounted
    ensures MountDone(true) in trace
  {
    if trace[|trace| - 1] != MountDone(true) {
      MountedAfter(trace[..|trace| - 1]);
    }
  }

  lemma {:induction false} RenderingOrSettled(trace: seq<Event>, k: nat)
    requires Observed(trace).legal && k < |trace| && trace[k].RenderCalled?
    ensures Observed(trace).busy == Some(RenderCall(trace[k].job)) || SettledBetween(trace, k, |trace|)
  {
    var before := trace[..|trace| - 1];
    if k < |before| {
      RenderingOrSettled(before, k);
      if !SettledBetween(before, k, |before|) {
        var last := trace[|trace| - 1];
        if last.RenderDone? {
          assert trace[|before|].job == trace[k].job;
        }
      }
    }
  }

  /** How much a disposal still has to wait for. */
  function Remaining(s: State): nat
  {
    var rank := match s.disposal
                case NotDisposing => 4
                case AwaitingMount(_) => 3
                case AwaitingTail(_) => 2
                case Invoked => 1
                case Settled => 0;
    rank + (if s.inFlight.Some? then 1 else 0) + (if s.current.Some? then 1 else 0) + 2 * |s.queue|
  }

  /** The one step a disposed host is waiting for. */
  function Pending(s: State): Label
  {
    if s.inFlight.Some? then MountSettle(false)
    else if s.current.Some? then JobSettle(false)
    else if s.queue != [] then JobStart
    else if s.disposal.Invoked? then DisposeSettle
    else DisposalResume
  }

  /** Main result: a started disposal is never stuck.  Some step is always enabled, it brings the
      disposal strictly closer to its end, and no other step undoes that. */
  lemma {:induction false} DisposalProgresses(labels: seq<Label>, l: Label)
    ensures var s := Run(labels);
            && (s.phase.Disposed? && !s.disposal.Settled? ==>
                  Enabled(s, Pending(s)) && Remaining(Step(s, Pending(s))) < Remaining(s))
            && (s.phase.Disposed? && Enabled(s, l) ==>
                  Step(s, l).phase.Disposed? && Remaining(Step(s, l)) <= Remaining(s))
  {
    hide Observed, JobsOf, InOrder, Run;
    AlwaysGood(labels);
  }
}
