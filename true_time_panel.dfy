/** The "true time" panel of the GUI tools: the same generation-cookie machine as
    the signal interpreter, without a lock, that starts no attempt when the URL is
    cleared and remembers a synchronisation error for display; plus the choice of
    the status text. Each assignment of the URL and each end of an attempt is one
    step; the timer-driven refresh is a pure selection over the fields. */
module TrueTimePanel {
  import opened TimeSources
  import NtpTimeSource

  /** The error text shown when an attempt passes its deadline. */
  const TimeoutMessage: string := "Clock sync timeout"

  /** What the status label shows, by priority. */
  datatype Status =
    | NoTimeserver                 // "No timeserver set"
    | SyncError(message: string)   // the remembered synchronisation error
    | Synchronizing                // "Synchronizing clocks..."
    | ShowTime(time: int)          // the true time, formatted

  /** The label text for a status; `format` stands for the timestamp formatting. */
  function StatusText(st: Status, format: int -> string): (text: string)
    ensures st.SyncError? ==> text == st.message
    ensures st.ShowTime? ==> text == format(st.time)
  {
    match st
    case NoTimeserver => "No timeserver set"
    case SyncError(m) => m
    case Synchronizing => "Synchronizing clocks..."
    case ShowTime(t) => format(t)
  }

  class Panel {
    var url: Option<Url>            // _timeserverUrl
    var cookie: nat                 // _cookie (0: never assigned)
    var dash: Option<Handle>        // _dashTimeSource
    var ntp: Option<Handle>         // _ntpTimeSource
    var source: Option<Source>      // _timeSource
    var syncError: Option<string>   // _syncError
    var attempts: set<nat>          // generations whose attempt was started and has not ended
    var disposed: seq<Handle>       // time sources handed to background disposal

    /** Only the current generation's attempt can still change the fields; an
        installed source and a remembered error exclude each other and both
        belong to a set URL. */
    ghost predicate Valid()
      reads this
    {
      && SourceFields(dash, ntp, source)
      && (forall g :: g in attempts ==> 1 <= g <= cookie)
      && (cookie in attempts ==> url.Some? && source.None? && syncError.None?)
      && (source.Some? ==> url.Some? && syncError.None?
                           && (source.value.NtpSource? <==> url.value.scheme == NtpScheme))
      && (syncError.Some? ==> url.Some?)
      && (url.None? ==> source.None? && cookie !in attempts)
    }

    constructor ()
      ensures Valid()
      ensures url.None? && cookie == 0 && source.None? && syncError.None?
      ensures dash.None? && ntp.None? && attempts == {} && disposed == []
    {
      url, cookie := None, 0;
      dash, ntp, source := None, None, None;
      syncError, attempts, disposed := None, {}, [];
    }

    /** The TimeserverUrl setter. Assigning the current URL does nothing. Another URL
        mints a generation greater than every earlier one, hands the sources to
        disposal, clears them and the error, and starts an attempt under that
        generation only if the URL is set. */
    method SetTimeserverUrl(value: Option<Url>)
      requires Valid()
      modifies this
      ensures Valid()
      ensures old(url) == value ==> unchanged(this)
      ensures old(url) != value ==>
        && cookie == old(cookie) + 1
        && (forall g :: g in old(attempts) ==> g < cookie)
        && url == value
        && syncError.None? && dash.None? && ntp.None? && source.None?
        && disposed == old(disposed) + Disposals(old(dash), old(ntp))
        && attempts == if value.Some? then old(attempts) + {cookie} else old(attempts)
    {
      if url == value {
        return;
      }
      cookie := cookie + 1;
      disposed := disposed + Disposals(dash, ntp);
      url := value;
      syncError := None;
      dash, ntp, source := None, None, None;
      if value.Some? {
        attempts := attempts + {cookie};
      }
    }

    /** SynchronizeAsync after its await: attempt `gen` ends with `outcome`. Under a
        superseded generation nothing but the attempt's own end is recorded; under
        the current one a success installs the source by the URL's scheme, a timeout
        remembers "Clock sync timeout" and another failure its message. */
    method CompleteSync(gen: nat, outcome: SyncOutcome)
      requires Valid() && gen in attempts
      modifies this
      ensures Valid()
      ensures attempts == old(attempts) - {gen}
      ensures url == old(url) && cookie == old(cookie) && disposed == old(disposed)
      ensures gen != cookie ==>
        syncError == old(syncError) && dash == old(dash) && ntp == old(ntp) && source == old(source)
      ensures gen == cookie ==> match outcome
        case Synced(h) =>
          source == Some(SourceFor(url.value.scheme, h)) && syncError.None?
        case TimedOut =>
          syncError == Some(TimeoutMessage) && source.None?
        case Failed(m) =>
          syncError == Some(m) && source.None?
    {
      attempts := attempts - {gen};
      if gen != cookie {
        return;
      }
      match outcome
      case Synced(h) =>
        if url.value.scheme == NtpScheme {
          ntp := Some(h);
          source := Some(NtpSource(h));
        } else {
          dash := Some(h);
          source := Some(DashSource(h));
        }
      case TimedOut =>
        syncError := Some(TimeoutMessage);
      case Failed(m) =>
        syncError := Some(m);
    }

    /** TrueTime: unknown exactly when no source is installed, otherwise the installed
        source's reading (`clock` gives what each source reports now). */
    function TrueTime(clock: Source -> int): (t: Option<int>)
      reads this
      ensures t.None? <==> source.None?
      ensures t.Some? ==> t.value == clock(source.value)
    {
      match source
      case None => None
      case Some(src) => Some(clock(src))
    }

    /** The status chosen on each timer tick: no URL first, then the error, then
        "synchronizing" while no source is installed, and the time only otherwise. */
    function Status(clock: Source -> int): (st: Status)
      reads this
      ensures st == NoTimeserver <==> url.None?
      ensures st.SyncError? <==> url.Some? && syncError.Some?
      ensures st.SyncError? ==> st.message == syncError.value
      ensures st == Synchronizing <==> url.Some? && syncError.None? && source.None?
      ensures st.ShowTime? <==> url.Some? && syncError.None? && source.Some?
      ensures st.ShowTime? ==> Some(st.time) == TrueTime(clock)
    {
      if url.None? then NoTimeserver
      else if syncError.Some? then SyncError(syncError.value)
      else if source.None? then Synchronizing
      else ShowTime(clock(source.value))
    }
  }

  /** A panel switched from `a` to the NTP server `b`: a success of the attempt for
      `a` that arrives afterwards installs nothing, and the attempt for `b`, whose new
      source ran `passes` before the deadline, leaves the panel showing that source's
      time exactly when some pass got a correction, and "Clock sync timeout"
      otherwise, never another error. */
  method SwitchToNtpServer(a: Url, b: Url, late: Handle, h: Handle,
                           passes: seq<NtpTimeSource.Outcome>, clock: Source -> int)
    returns (st: Status)
    requires a != b && b.scheme == NtpScheme
    ensures st.ShowTime? <==> exists i :: 0 <= i < |passes| && passes[i].Correction?
    ensures st.ShowTime? ==> st.time == clock(NtpSource(h))
    ensures !st.ShowTime? ==> st == SyncError(TimeoutMessage)
  {
    var p := new Panel();
    p.SetTimeserverUrl(Some(a));
    var first := p.cookie;
    p.SetTimeserverUrl(Some(b));
    p.CompleteSync(first, Synced(late));
    assert p.source.None?;
    NtpTimeSource.FirstSyncWaitSucceedsIffCorrection(h, passes);
    p.CompleteSync(p.cookie, NtpTimeSource.FirstSyncWait(h, passes));
    st := p.Status(clock);
  }
}
