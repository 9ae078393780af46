/** The signal interpreter of the pipe tool: for each decoded payload it decides
    which timeserver to synchronise with, reuses or replaces the synchronisation
    attempt, discards results of superseded attempts (by a generation "cookie")
    and raises a latency once a reference time is known.

    Every critical section under the interpreter's lock, and the teardown, which
    takes no lock, is one step here: a pure step function over `Session`, and a
    method of class `Interpreter` that updates the fields in place and is proved to
    agree with it. Concurrency becomes the order in which the steps are called;
    `Run` interleaves them freely. */
module SignalInterpreter {
  import opened TimeSources
  import NtpTimeSource

  /** The payload embedded in the visual signal: 100 ns ticks since 0001-01-01 UTC
      and the timeserver URL text, if any. */
  datatype SignalPayload = SignalPayload(ticks: int, timeserverUrl: Option<string>)

  /** The largest tick count a `DateTimeOffset` can hold (9999-12-31T23:59:59.9999999). */
  const MaxTicks: int := 3_155_378_975_999_999_999

  /** The exceptions the interpreter reports through its `Error` event. */
  datatype Fault =
    | InvalidUrl(text: string)       // NotSupportedException: the URL text is not an absolute URI
    | SyncTimeout                    // TimeoutException: the attempt passed its deadline
    | SyncFailure(message: string)   // any other exception from the time source libraries
    | NullTarget                     // NullReferenceException: an attempt started for no URL

  /** The events raised, in order. */
  datatype Event = Error(fault: Fault) | Latency(duration: int)

  /** What a payload awaits once the target decision is made: the unset task (before
      the first switch), the synchronisation task of attempt `gen`, or a completed
      "proceed". */
  datatype Awaited = NullTask | Attempt(gen: nat) | Proceed

  /** The interpreter's fields, together with the results of the synchronisation
      tasks (by generation) and the log of objects handed to disposal and of events. */
  datatype Session = Session(
    url: Option<Url>,          // _timeserverUrl
    cookie: nat,               // _timeserverCookie: the current generation
    dash: Option<Handle>,      // _dashTimeSource
    ntp: Option<Handle>,       // _ntpTimeSource
    source: Option<Source>,    // _timeSource
    task: Option<nat>,         // _synchronizeTask: the generation of the attempt it belongs to
    results: map<nat, bool>,   // the result of every synchronisation task that has completed
    disposed: seq<Handle>,     // time sources handed to disposal
    events: seq<Event>)        // Error and LatencyUpdated events raised

  /** A newly constructed interpreter. */
  const Initial: Session := Session(None, 0, None, None, None, None, map[], [], [])

  /** What holds of the session between steps. */
  ghost predicate Coherent(s: Session) {
    && s.task == (if s.cookie == 0 then None else Some(s.cookie))
    && (s.cookie == 0 ==> s.url.None?)
    && (forall g :: g in s.results ==> 1 <= g <= s.cookie)
    && (s.url.None? && s.cookie > 0 ==> s.cookie in s.results && !s.results[s.cookie])
    && SourceFields(s.dash, s.ntp, s.source)
    && (s.source.Some? <==> s.cookie in s.results && s.results[s.cookie])
    && (s.source.Some? ==> s.url.Some? && (s.source.value.NtpSource? <==> s.url.value.scheme == NtpScheme))
  }

  /** Attempt `gen` has been started and its task has not completed. */
  predicate Pending(s: Session, gen: nat) {
    1 <= gen <= s.cookie && gen !in s.results
  }

  /** The awaited task has completed (the unset task and "proceed" never wait). */
  predicate Ready(s: Session, a: Awaited) {
    a.Attempt? ==> a.gen in s.results
  }

  function LatencyCount(events: seq<Event>): (n: nat)
    ensures n <= |events|
  {
    if events == [] then 0
    else LatencyCount(events[..|events| - 1]) + (if events[|events| - 1].Latency? then 1 else 0)
  }

  lemma LatencyCountAppend(events: seq<Event>, e: Event)
    ensures LatencyCount(events + [e]) == LatencyCount(events) + (if e.Latency? then 1 else 0)
  {
    assert (events + [e])[..|events|] == events;
  }

  // ----- Admission of a payload (Add, before the lock) -----

  datatype Admission = Rejected | Admitted(target: Option<Url>)

  /** A missing or empty URL means "no timeserver"; any other text must parse as an
      absolute URI (`tryCreate` stands for `Uri.TryCreate(…, UriKind.Absolute, …)`). */
  function AdmitUrl(raw: Option<string>, tryCreate: string -> Option<Url>): (r: Admission)
    ensures r.Rejected? <==> raw.Some? && raw.value != "" && tryCreate(raw.value).None?
    ensures r.Admitted? && r.target.Some? <==> raw.Some? && raw.value != "" && tryCreate(raw.value).Some?
    ensures r.Admitted? && r.target.Some? ==> r.target == tryCreate(raw.value)
  {
    if raw.None? || raw.value == "" then Admitted(None)
    else match tryCreate(raw.value)
      case None => Rejected
      case Some(u) => Admitted(Some(u))
  }

  /** A rejected payload raises one format error and nothing else. */
  function Refuse(s: Session, text: string): Session {
    s.(events := s.events + [Error(InvalidUrl(text))])
  }

  // ----- UpdateSynchronizedTimeAsync: the target decision under the lock -----

  /** Returns the new session, the generation the payload captures and what it awaits.
      The same target reuses the stored task; a different one mints a generation,
      hands the old sources to disposal, clears them and starts an attempt. An
      attempt for no URL fails at once inside the lock (it dereferences the null
      URL), raising an error and storing `false`, while the payload that caused
      the switch is told to proceed. */
  function Update(s: Session, target: Option<Url>): (Session, nat, Awaited) {
    if s.url == target then
      (s, s.cookie, if s.task.Some? then Attempt(s.task.value) else NullTask)
    else
      var g := s.cookie + 1;
      var t := s.(url := target, cookie := g, dash := None, ntp := None, source := None,
                  task := Some(g), disposed := s.disposed + Disposals(s.dash, s.ntp));
      if target.Some? then (t, g, Attempt(g))
      else (t.(results := t.results[g := false], events := t.events + [Error(NullTarget)]), g, Proceed)
  }

  // ----- SynchronizeAsync: the completion of an attempt, under the lock -----

  /** Attempt `gen` ends with `outcome`. Only under the current generation does it
      install a source (by the URL's scheme) or raise an error; a superseded attempt
      resolves `false` and changes nothing else. */
  function Commit(s: Session, gen: nat, outcome: SyncOutcome): (Session, bool)
    requires Coherent(s) && Pending(s, gen)
  {
    if gen != s.cookie then (s.(results := s.results[gen := false]), false)
    else
      match outcome
      case Synced(h) =>
        if s.url.value.scheme == NtpScheme then
          (s.(ntp := Some(h), source := Some(NtpSource(h)), results := s.results[gen := true]), true)
        else
          (s.(dash := Some(h), source := Some(DashSource(h)), results := s.results[gen := true]), true)
      case TimedOut =>
        (s.(events := s.events + [Error(SyncTimeout)], results := s.results[gen := false]), false)
      case Failed(m) =>
        (s.(events := s.events + [Error(SyncFailure(m))], results := s.results[gen := false]), false)
  }

  // ----- Add, after the await: the latency, under the lock -----

  /** The reference time: the installed source's reading if there is a source,
      otherwise the wall clock. */
  function Reference(s: Session, wall: int, reading: int): int {
    if s.source.Some? then reading else wall
  }

  /** Under the captured generation, the latency `reference - ticks` is raised; a
      superseded payload, or one whose ticks are not a valid `DateTimeOffset`, raises
      nothing. */
  function Process(s: Session, gen: nat, ticks: int, wall: int, reading: int): Session {
    if gen != s.cookie || ticks < 0 || ticks > MaxTicks then s
    else s.(events := s.events + [Latency(Reference(s, wall, reading) - ticks)])
  }

  /** The payload's continuation once the awaited task has completed: awaiting the
      unset task throws inside the detached task, `false` drops the payload, `true`
      processes it. */
  function Resume(s: Session, gen: nat, a: Awaited, ticks: int, wall: int, reading: int): Session
    requires Ready(s, a)
  {
    match a
    case NullTask => s
    case Attempt(g) => if s.results[g] then Process(s, gen, ticks, wall, reading) else s
    case Proceed => Process(s, gen, ticks, wall, reading)
  }

  /** DisposeAsync: the DASH clock, then the NTP source, are disposed; no field changes. */
  function Teardown(s: Session): Session {
    s.(disposed := s.disposed + Disposals(s.dash, s.ntp))
  }

  // ----- Properties of single steps -----

  lemma InitialCoherent()
    ensures Coherent(Initial)
  {}

  lemma UpdateCoherent(s: Session, target: Option<Url>)
    requires Coherent(s)
    ensures Coherent(Update(s, target).0)
  {}

  lemma CommitCoherent(s: Session, gen: nat, outcome: SyncOutcome)
    requires Coherent(s) && Pending(s, gen)
    ensures Coherent(Commit(s, gen, outcome).0)
  {}

  lemma ResumeCoherent(s: Session, gen: nat, a: Awaited, ticks: int, wall: int, reading: int)
    requires Coherent(s) && Ready(s, a)
    ensures Coherent(Resume(s, gen, a, ticks, wall, reading))
  {}

  /** The same target: the current generation and the stored task are returned and
      nothing changes. */
  lemma SameTargetChangesNothing(s: Session, target: Option<Url>)
    requires Coherent(s) && s.url == target
    ensures Update(s, target).0 == s
    ensures Update(s, target).1 == s.cookie
    ensures Update(s, target).2 == if s.cookie == 0 then NullTask else Attempt(s.cookie)
  {}

  /** A different target: a generation greater than every earlier one (so different
      from all of them), the target set, all three sources cleared and handed to
      disposal, and the returned generation is the new current one. */
  lemma SwitchMintsFreshGeneration(s: Session, target: Option<Url>)
    requires Coherent(s) && s.url != target
    ensures var (t, g, a) := Update(s, target);
      && g == t.cookie > s.cookie
      && (forall h :: h in s.results ==> h < g)
      && g !in s.results
      && t.url == target
      && t.dash.None? && t.ntp.None? && t.source.None?
      && t.disposed == s.disposed + Disposals(s.dash, s.ntp)
      && (target.Some? ==> a == Attempt(g) && Pending(t, g) && t.events == s.events)
      && (target.None? ==> a == Proceed && t.results == s.results[g := false]
                           && t.events == s.events + [Error(NullTarget)])
  {}

  /** A completion under a superseded generation returns false, installs nothing and
      raises nothing, whatever the outcome: only its own task's result is recorded. */
  lemma StaleCommitChangesNothing(s: Session, gen: nat, outcome: SyncOutcome)
    requires Coherent(s) && Pending(s, gen) && gen != s.cookie
    ensures var (t, ok) := Commit(s, gen, outcome);
      !ok && t == s.(results := s.results[gen := false])
  {}

  /** A success under the current generation installs exactly one source, chosen by
      the URL's scheme, and resolves true. */
  lemma CurrentSuccessInstalls(s: Session, h: Handle)
    requires Coherent(s) && Pending(s, s.cookie)
    ensures var (t, ok) := Commit(s, s.cookie, Synced(h));
      && ok && t.source == Some(SourceFor(s.url.value.scheme, h))
      && SourceFields(t.dash, t.ntp, t.source)
      && t.events == s.events && t.url == s.url && t.cookie == s.cookie
  {}

  /** A timeout or other failure under the current generation raises exactly one
      error and resolves false; no source is installed. */
  lemma CurrentFailureRaisesOneError(s: Session, outcome: SyncOutcome)
    requires Coherent(s) && Pending(s, s.cookie) && !outcome.Synced?
    ensures var (t, ok) := Commit(s, s.cookie, outcome);
      && !ok && t.source.None?
      && t.events == s.events + [Error(if outcome.TimedOut? then SyncTimeout else SyncFailure(outcome.message))]
  {}

  /** An attempt on an NTP server ends by waiting on its new source's first sync
      (`FirstSyncWait`), so under the current generation it either installs that
      source, when some pass before the deadline got a correction, or raises the
      timeout error; it never raises the exception of a DNS lookup or exchange. */
  lemma NtpAttemptNeverRaisesFailure(s: Session, h: Handle, passes: seq<NtpTimeSource.Outcome>)
    requires Coherent(s) && Pending(s, s.cookie)
    requires s.url.Some? && s.url.value.scheme == NtpScheme
    ensures var (t, ok) := Commit(s, s.cookie, NtpTimeSource.FirstSyncWait(h, passes));
      && (ok <==> exists i :: 0 <= i < |passes| && passes[i].Correction?)
      && (ok ==> t.source == Some(NtpSource(h)) && t.events == s.events)
      && (!ok ==> t.source.None? && t.events == s.events + [Error(SyncTimeout)])
  {
    NtpTimeSource.FirstSyncWaitSucceedsIffCorrection(h, passes);
  }

  /** A payload raises at most one latency, and only under the current generation;
      the latency is the reference time minus the payload's ticks. */
  lemma ResumeRaisesAtMostOneLatency(s: Session, gen: nat, a: Awaited, ticks: int, wall: int, reading: int)
    requires Ready(s, a)
    ensures var t := Resume(s, gen, a, ticks, wall, reading);
      || t == s
      || (gen == s.cookie && t == s.(events := s.events + [Latency(Reference(s, wall, reading) - ticks)]))
  {}

  /** After a failed attempt for the current target, a later payload with the same
      target is dropped: no new attempt, nothing raised, nothing changed. */
  lemma FailedTargetIsStuck(s: Session, target: Option<Url>, ticks: int, wall: int, reading: int)
    requires Coherent(s) && s.url == target && s.cookie in s.results && !s.results[s.cookie]
    ensures var (t, g, a) := Update(s, target);
      Ready(t, a) && Resume(t, g, a, ticks, wall, reading) == s
  {}

  /** Before the first switch, a payload without a URL awaits the unset task and is
      dropped: nothing is raised. */
  lemma FirstNullPayloadIsDropped(ticks: int, wall: int, reading: int)
    ensures var (t, g, a) := Update(Initial, None);
      a == NullTask && Resume(t, g, a, ticks, wall, reading) == Initial
  {}

  /** Switching from a URL to none: the triggering payload proceeds against the wall
      clock, after the error of the failed null attempt; a later payload without a
      URL reuses the stored false result and is dropped. */
  lemma SwitchToNoUrl(s: Session, ticks: int, wall: int, reading: int, ticks2: int)
    requires Coherent(s) && s.url.Some? && 0 <= ticks <= MaxTicks
    ensures var (t, g, a) := Update(s, None);
      && a == Proceed
      && Resume(t, g, a, ticks, wall, reading).events
         == s.events + [Error(NullTarget), Latency(wall - ticks)]
      && var u := Resume(t, g, a, ticks, wall, reading);
         var (v, g2, a2) := Update(u, None);
         v == u && g2 == g && Ready(v, a2) && Resume(v, g2, a2, ticks2, wall, reading) == u
  {}

  // ----- Interleavings -----

  /** A payload that has passed the target decision and waits for its task. */
  datatype Continuation = Continuation(gen: nat, awaited: Awaited, ticks: int)

  /** One step of the concurrent system: a call to Add (admission and target
      decision), the end of a pending attempt, or the continuation of a waiting
      payload (with the clock readings at that moment). */
  datatype Action =
    | Add(payload: SignalPayload)
    | Complete(gen: nat, outcome: SyncOutcome)
    | Continue(index: nat, wall: int, reading: int)

  datatype World = World(session: Session, waiting: seq<Continuation>)

  ghost predicate WorldCoherent(w: World) {
    && Coherent(w.session)
    && forall i :: 0 <= i < |w.waiting| ==> w.waiting[i].gen <= w.session.cookie
  }

  /** One step; an action that is not enabled (an attempt that is not pending, a
      continuation whose task has not completed) leaves the world as it is. */
  function Step(w: World, act: Action, tryCreate: string -> Option<Url>): World
    requires Coherent(w.session)
  {
    match act
    case Add(p) =>
      (match AdmitUrl(p.timeserverUrl, tryCreate)
       case Rejected => World(Refuse(w.session, p.timeserverUrl.value), w.waiting)
       case Admitted(target) =>
         var (s, g, a) := Update(w.session, target);
         World(s, w.waiting + [Continuation(g, a, p.ticks)]))
    case Complete(gen, outcome) =>
      if Pending(w.session, gen) then World(Commit(w.session, gen, outcome).0, w.waiting) else w
    case Continue(i, wall, reading) =>
      if i < |w.waiting| && Ready(w.session, w.waiting[i].awaited) then
        var c := w.waiting[i];
        World(Resume(w.session, c.gen, c.awaited, c.ticks, wall, reading),
              w.waiting[..i] + w.waiting[i + 1..])
      else w
  }

  lemma StepCoherent(w: World, act: Action, tryCreate: string -> Option<Url>)
    requires WorldCoherent(w)
    ensures WorldCoherent(Step(w, act, tryCreate))
  {
    match act
    case Add(p) =>
      if AdmitUrl(p.timeserverUrl, tryCreate).Admitted? {
        UpdateCoherent(w.session, AdmitUrl(p.timeserverUrl, tryCreate).target);
      }
    case Complete(gen, outcome) =>
      if Pending(w.session, gen) { CommitCoherent(w.session, gen, outcome); }
    case Continue(i, wall, reading) =>
      if i < |w.waiting| && Ready(w.session, w.waiting[i].awaited) {
        var c := w.waiting[i];
        ResumeCoherent(w.session, c.gen, c.awaited, c.ticks, wall, reading);
        var rest := w.waiting[..i] + w.waiting[i + 1..];
        forall j | 0 <= j < |rest| ensures rest[j].gen <= w.session.cookie {
          if j < i { assert rest[j] == w.waiting[j]; } else { assert rest[j] == w.waiting[j + 1]; }
        }
      }
  }

  /** The system after a sequence of actions. */
  function Run(w: World, acts: seq<Action>, tryCreate: string -> Option<Url>): (r: World)
    requires WorldCoherent(w)
    ensures WorldCoherent(r)
    decreases |acts|
  {
    if acts == [] then w
    else
      StepCoherent(w, acts[0], tryCreate);
      Run(Step(w, acts[0], tryCreate), acts[1..], tryCreate)
  }

  function AddCount(acts: seq<Action>): (n: nat)
    ensures n <= |acts|
  {
    if acts == [] then 0 else (if acts[0].Add? then 1 else 0) + AddCount(acts[1..])
  }

  /** A step raises at most one latency, only by ending a waiting payload, and an
      Add creates at most one waiting payload. */
  lemma StepLatencyBudget(w: World, act: Action, tryCreate: string -> Option<Url>)
    requires WorldCoherent(w)
    ensures var r := Step(w, act, tryCreate);
      LatencyCount(r.session.events) + |r.waiting|
        <= LatencyCount(w.session.events) + |w.waiting| + (if act.Add? then 1 else 0)
  {
    var s := w.session;
    match act
    case Add(p) =>
      var admission := AdmitUrl(p.timeserverUrl, tryCreate);
      if admission.Rejected? {
        LatencyCountAppend(s.events, Error(InvalidUrl(p.timeserverUrl.value)));
      } else if s.url != admission.target && admission.target.None? {
        LatencyCountAppend(s.events, Error(NullTarget));
      }
    case Complete(gen, outcome) =>
      if Pending(s, gen) && gen == s.cookie {
        match outcome
        case Synced(h) =>
        case TimedOut => LatencyCountAppend(s.events, Error(SyncTimeout));
        case Failed(m) => LatencyCountAppend(s.events, Error(SyncFailure(m)));
      }
    case Continue(i, wall, reading) =>
      if i < |w.waiting| && Ready(s, w.waiting[i].awaited) {
        var c := w.waiting[i];
        ResumeRaisesAtMostOneLatency(s, c.gen, c.awaited, c.ticks, wall, reading);
        LatencyCountAppend(s.events, Latency(Reference(s, wall, reading) - c.ticks));
      }
  }

  /** However the steps interleave, the latencies raised never outnumber the calls to
      Add: each payload raises at most one, and a superseded or dropped one none. */
  lemma {:induction false} LatenciesNeverExceedAdds(w: World, acts: seq<Action>, tryCreate: string -> Option<Url>)
    requires WorldCoherent(w)
    ensures var r := Run(w, acts, tryCreate);
      LatencyCount(r.session.events) + |r.waiting|
        <= LatencyCount(w.session.events) + |w.waiting| + AddCount(acts)
    decreases |acts|
  {
    if acts != [] {
      StepLatencyBudget(w, acts[0], tryCreate);
      StepCoherent(w, acts[0], tryCreate);
      LatenciesNeverExceedAdds(Step(w, acts[0], tryCreate), acts[1..], tryCreate);
    }
  }

  /** From a new interpreter, N calls to Add raise at most N latencies. */
  lemma AtMostOneLatencyPerAdd(acts: seq<Action>, tryCreate: string -> Option<Url>)
    ensures WorldCoherent(World(Initial, []))
    ensures LatencyCount(Run(World(Initial, []), acts, tryCreate).session.events) <= AddCount(acts)
  {
    LatenciesNeverExceedAdds(World(Initial, []), acts, tryCreate);
  }

  /** Generations only grow: no interleaving brings back an earlier cookie. */
  lemma {:induction false} GenerationNeverDecreases(w: World, acts: seq<Action>, tryCreate: string -> Option<Url>)
    requires WorldCoherent(w)
    ensures Run(w, acts, tryCreate).session.cookie >= w.session.cookie
    decreases |acts|
  {
    if acts != [] {
      StepCoherent(w, acts[0], tryCreate);
      GenerationNeverDecreases(Step(w, acts[0], tryCreate), acts[1..], tryCreate);
    }
  }

  // ----- The interpreter object -----

  class Interpreter {
    var url: Option<Url>
    var cookie: nat
    var dash: Option<Handle>
    var ntp: Option<Handle>
    var source: Option<Source>
    var task: Option<nat>
    var results: map<nat, bool>
    var disposed: seq<Handle>
    var events: seq<Event>

    ghost function State(): Session
      reads this
    {
      Session(url, cookie, dash, ntp, source, task, results, disposed, events)
    }

    ghost predicate Valid()
      reads this
    {
      Coherent(State())
    }

    constructor ()
      ensures Valid() && State() == Initial
    {
      url, cookie := None, 0;
      dash, ntp, source := None, None, None;
      task, results := None, map[];
      disposed, events := [], [];
    }

    /** The check at the start of Add: a URL that is present, non-empty and not an
        absolute URI raises a format error and the payload goes no further. */
    method Admit(raw: Option<string>, tryCreate: string -> Option<Url>) returns (admission: Admission)
      requires Valid()
      modifies this
      ensures Valid()
      ensures admission == AdmitUrl(raw, tryCreate)
      ensures State() == if admission.Rejected? then Refuse(old(State()), raw.value) else old(State())
    {
      if raw.Some? && raw.value != "" {
        var parsed := tryCreate(raw.value);
        if parsed.None? {
          events := events + [Error(InvalidUrl(raw.value))];
          return Rejected;
        }
        return Admitted(parsed);
      }
      return Admitted(None);
    }

    /** UpdateSynchronizedTimeAsync: one critical section. */
    method UpdateSynchronizedTime(target: Option<Url>) returns (gen: nat, awaited: Awaited)
      requires Valid()
      modifies this
      ensures Valid()
      ensures (State(), gen, awaited) == Update(old(State()), target)
      ensures gen == cookie
      ensures old(url) == target ==> State() == old(State())
      ensures old(url) != target ==> cookie > old(cookie) && source.None?
    {
      UpdateCoherent(State(), target);
      if url == target {
        gen := cookie;
        awaited := if task.Some? then Attempt(task.value) else NullTask;
        return;
      }
      cookie := cookie + 1;
      disposed := disposed + Disposals(dash, ntp);
      url := target;
      dash, ntp, source := None, None, None;
      gen := cookie;
      task := Some(cookie);
      awaited := Attempt(cookie);
      if target.None? {
        // The attempt reads the scheme of the null URL before its first await: it
        // fails at once, under the still-current generation.
        events := events + [Error(NullTarget)];
        results := results[cookie := false];
        awaited := Proceed;
      }
    }

    /** SynchronizeAsync after its await: one critical section. */
    method CompleteSync(gen: nat, outcome: SyncOutcome) returns (ok: bool)
      requires Valid() && Pending(State(), gen)
      modifies this
      ensures Valid()
      ensures (State(), ok) == Commit(old(State()), gen, outcome)
      ensures gen != old(cookie) ==> !ok && events == old(events) && source == old(source)
    {
      CommitCoherent(State(), gen, outcome);
      if gen != cookie {
        results := results[gen := false];
        return false;
      }
      match outcome
      case Synced(h) =>
        if url.value.scheme == NtpScheme {
          ntp := Some(h);
          source := Some(NtpSource(h));
        } else {
          dash := Some(h);
          source := Some(DashSource(h));
        }
        results := results[gen := true];
        ok := true;
      case TimedOut =>
        events := events + [Error(SyncTimeout)];
        results := results[gen := false];
        ok := false;
      case Failed(m) =>
        events := events + [Error(SyncFailure(m))];
        results := results[gen := false];
        ok := false;
    }

    /** Add after the await: drops the payload unless the task said true, then, under
        the lock, raises the latency if the captured generation is still current. */
    method Continue(gen: nat, awaited: Awaited, ticks: int, wall: int, reading: int)
      requires Valid() && Ready(State(), awaited)
      modifies this
      ensures Valid()
      ensures State() == Resume(old(State()), gen, awaited, ticks, wall, reading)
      ensures |events| <= |old(events)| + 1
    {
      ResumeCoherent(State(), gen, awaited, ticks, wall, reading);
      var proceed := match awaited
        case NullTask => false
        case Attempt(g) => results[g]
        case Proceed => true;
      if !proceed || gen != cookie || ticks < 0 || ticks > MaxTicks {
        return;
      }
      var reference := wall;
      if source.Some? {
        reference := reading;
      }
      events := events + [Latency(reference - ticks)];
    }

    /** DisposeAsync: the installed DASH clock and NTP source are disposed. */
    method Dispose()
      requires Valid()
      modifies this
      ensures Valid()
      ensures State() == Teardown(old(State()))
    {
      disposed := disposed + Disposals(dash, ntp);
    }
  }
}
