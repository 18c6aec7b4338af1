/**
  The notifier's event vocabulary: the three closed enumerations a monitoring
  caller passes in, their spellings on the command line and in display text,
  and the decoded event record.
 */
module EventModel {
  import opened Wrappers

  /** Whether the event concerns a host or a service on a host. */
  datatype EventType = Host | Service

  /** Whether the event reports a new problem or a recovery from one. */
  datatype NotificationType = Problem | Recovery

  /** The check result severity carried by the event. */
  datatype Status = Ok | Warning | Critical | Unknown | Unreachable

  /** The command-line spelling of an event type (lower-case). */
  function EventTypeName(t: EventType): string
  {
    match t
    case Host => "host"
    case Service => "service"
  }

  /**
    The spelling of a notification type; the command-line value name and the
    display text are the same upper-case word.
   */
  function NotificationTypeName(n: NotificationType): string
  {
    match n
    case Problem => "PROBLEM"
    case Recovery => "RECOVERY"
  }

  /** The spelling of a status; command-line value name and display text agree. */
  function StatusName(s: Status): string
  {
    match s
    case Ok => "OK"
    case Warning => "WARNING"
    case Critical => "CRITICAL"
    case Unknown => "UNKNOWN"
    case Unreachable => "UNREACHABLE"
  }

  /** Decoding of an event type argument: an exact match against the spelling table. */
  function ParseEventType(s: string): (r: Option<EventType>)
    ensures r.Some? <==> s in {"host", "service"}
  {
    if s == "host" then Some(Host)
    else if s == "service" then Some(Service)
    else None
  }

  /** Decoding of a notification type argument or display string. */
  function ParseNotificationType(s: string): (r: Option<NotificationType>)
    ensures r.Some? <==> s in {"PROBLEM", "RECOVERY"}
  {
    if s == "PROBLEM" then Some(Problem)
    else if s == "RECOVERY" then Some(Recovery)
    else None
  }

  /** Decoding of a status argument or display string. */
  function ParseStatus(s: string): (r: Option<Status>)
    ensures r.Some? <==> s in {"OK", "WARNING", "CRITICAL", "UNKNOWN", "UNREACHABLE"}
  {
    if s == "OK" then Some(Ok)
    else if s == "WARNING" then Some(Warning)
    else if s == "CRITICAL" then Some(Critical)
    else if s == "UNKNOWN" then Some(Unknown)
    else if s == "UNREACHABLE" then Some(Unreachable)
    else None
  }

  /** The spelling of each event type, written out. */
  lemma EventTypeNameTable(t: EventType)
    ensures t == Host ==> EventTypeName(t) == "host"
    ensures t == Service ==> EventTypeName(t) == "service"
  {
  }

  /** The spelling of each notification type, written out. */
  lemma NotificationTypeNameTable(n: NotificationType)
    ensures n == Problem ==> NotificationTypeName(n) == "PROBLEM"
    ensures n == Recovery ==> NotificationTypeName(n) == "RECOVERY"
  {
  }

  /** The spelling of each status, written out. */
  lemma StatusNameTable(s: Status)
    ensures s == Ok ==> StatusName(s) == "OK"
    ensures s == Warning ==> StatusName(s) == "WARNING"
    ensures s == Critical ==> StatusName(s) == "CRITICAL"
    ensures s == Unknown ==> StatusName(s) == "UNKNOWN"
    ensures s == Unreachable ==> StatusName(s) == "UNREACHABLE"
  {
  }

  /** Event types and their spellings are in one-to-one correspondence. */
  lemma EventTypeSpelling(s: string, t: EventType)
    ensures ParseEventType(s) == Some(t) <==> s == EventTypeName(t)
  {
  }

  /** Notification types and their spellings are in one-to-one correspondence. */
  lemma NotificationTypeSpelling(s: string, n: NotificationType)
    ensures ParseNotificationType(s) == Some(n) <==> s == NotificationTypeName(n)
  {
  }

  /** Statuses and their spellings are in one-to-one correspondence. */
  lemma StatusSpelling(s: string, st: Status)
    ensures ParseStatus(s) == Some(st) <==> s == StatusName(st)
  {
  }

  /**
    The decoded event: every command-line field of one invocation. `host`,
    `addresses`, the event and notification types and the raw `datetime` text
    are required; the rest may be absent.
   */
  datatype Event = Event(
    verbose: bool,
    host: string,
    addresses: string,
    hostAddress: Option<string>,
    eventType: EventType,
    datetime: string,
    notificationType: NotificationType,
    service: Option<string>,
    status: Option<Status>,
    output: Option<string>)
  {
    /** Whether the event concerns a host rather than a service. */
    predicate IsHost()
    {
      eventType == Host
    }
  }
}
