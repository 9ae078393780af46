/** Values shared by the clock-synchronisation components: the timeserver URL,
    the installed time source and the way a synchronisation attempt ends. */
module TimeSources {

  datatype Option<+T> = None | Some(value: T)

  /** An absolute URL as `System.Uri` holds it once parsed: its text and its scheme.
      Two URLs are the same target exactly when they are equal values. */
  datatype Url = Url(text: string, scheme: string)

  /** The scheme that selects the periodic-refresh (NTP) time source; every other
      scheme selects the DASH synchronised clock. */
  const NtpScheme: string := "ntp"

  /** The identity of an object created by a library: an NTP time source or a
      DASH synchronised clock. */
  type Handle = nat

  /** The installed time source: which kind of source, and which object. */
  datatype Source = NtpSource(handle: Handle) | DashSource(handle: Handle)

  /** How a synchronisation attempt ends, as the libraries report it:
      the clock is ready, the 10-second deadline passed, or some other exception. */
  datatype SyncOutcome = Synced(handle: Handle) | TimedOut | Failed(message: string)

  /** The source the attempt installs for a URL with the given scheme. */
  function SourceFor(scheme: string, h: Handle): (src: Source)
    ensures src.handle == h
    ensures src.NtpSource? <==> scheme == NtpScheme
  {
    if scheme == NtpScheme then NtpSource(h) else DashSource(h)
  }

  /** The three source fields agree: the installed source is whichever of the
      DASH and NTP fields is set, and at most one of them is. */
  predicate SourceFields(dash: Option<Handle>, ntp: Option<Handle>, source: Option<Source>) {
    match source
    case None => dash.None? && ntp.None?
    case Some(NtpSource(h)) => ntp == Some(h) && dash.None?
    case Some(DashSource(h)) => dash == Some(h) && ntp.None?
  }

  /** The objects handed to disposal when the target changes or the owner is torn
      down: the DASH clock first, then the NTP source, each only if set. */
  function Disposals(dash: Option<Handle>, ntp: Option<Handle>): (hs: seq<Handle>)
    ensures |hs| <= 2
    ensures forall h :: h in hs <==> dash == Some(h) || ntp == Some(h)
    ensures dash.Some? ==> hs[0] == dash.value
  {
    (if dash.Some? then [dash.value] else []) + (if ntp.Some? then [ntp.value] else [])
  }
}
