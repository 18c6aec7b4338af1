/**
  The phrase resolver: pure functions from an event to the display strings
  that go into the mail title, the subject line and the body context.
 */
module Phrases {
  import opened Wrappers
  import opened EventModel

  /** The title for a notification type outside Problem and Recovery. */
  const GenericTitle: string := "何らかの問題が発生（詳細不明）"

  /** The noun naming what the event is about: host or service. */
  function TitleTypeName(e: Event): (r: string)
    ensures r == "ホスト" <==> e.eventType == Host
    ensures r == "サービス" <==> e.eventType == Service
  {
    if e.IsHost() then "ホスト" else "サービス"
  }

  /** The tense phrase: returned to normal for a recovery, problem occurred otherwise. */
  function TitleStatusDescription(e: Event): (r: string)
    ensures r == "が正常状態に復帰" <==> e.notificationType == Recovery
    ensures r == "に問題が発生" <==> e.notificationType == Problem
  {
    if e.notificationType.Recovery? then "が正常状態に復帰" else "に問題が発生"
  }

  /**
    The mail title. The generic fallback is kept as the source writes it, but
    since a notification type is always Problem or Recovery it is never chosen.
   */
  function Title(e: Event): (r: string)
    ensures r != GenericTitle
    ensures r == TitleTypeName(e) + TitleStatusDescription(e)
  {
    if e.notificationType.Problem? || e.notificationType.Recovery? then
      TitleTypeName(e) + TitleStatusDescription(e)
    else
      assert false; GenericTitle
  }

  /**
    Two events get the same title exactly when they agree on event type and
    notification type: the title reads nothing else and loses nothing of those two.
   */
  lemma TitleIdentifiesTypes(a: Event, b: Event)
    ensures Title(a) == Title(b) <==>
      a.eventType == b.eventType && a.notificationType == b.notificationType
  {
  }

  /** The four titles an event can get, written out in full. */
  lemma TitleTable(e: Event)
    ensures e.eventType == Host && e.notificationType == Problem ==> Title(e) == "ホストに問題が発生"
    ensures e.eventType == Host && e.notificationType == Recovery ==> Title(e) == "ホストが正常状態に復帰"
    ensures e.eventType == Service && e.notificationType == Problem ==> Title(e) == "サービスに問題が発生"
    ensures e.eventType == Service && e.notificationType == Recovery ==> Title(e) == "サービスが正常状態に復帰"
  {
  }

  /** The host state word of a host subject. */
  function HostStatus(e: Event): (r: string)
    ensures r == "DOWN" <==> e.notificationType == Problem
    ensures r == "UP" <==> e.notificationType == Recovery
  {
    match e.notificationType
    case Problem => "DOWN"
    case Recovery => "UP"
  }

  /** The status words used for host events. */
  function HostStatusWord(s: Status): string
  {
    match s
    case Ok => "回復"
    case Warning => "警告"
    case Critical => "ダウン"
    case Unknown => "不明"
    case Unreachable => "到達不能（経路障害の可能性）"
  }

  /** The status words used for service events. */
  function ServiceStatusWord(s: Status): string
  {
    match s
    case Ok => "回復"
    case Warning => "警告"
    case Critical => "致命的"
    case Unknown => "不明"
    case Unreachable => "到達不能（経路障害の可能性）"
  }

  /**
    The localized status description for the body. It is absent exactly when
    the event carries no status; a critical status reads as "down" for a host
    and as "fatal" for a service.
   */
  function StatusDescription(e: Event): (r: Option<string>)
    ensures r.None? <==> e.status.None?
    ensures e.status == Some(Critical) ==> r == Some(if e.IsHost() then "ダウン" else "致命的")
  {
    if e.IsHost() then
      match e.status
      case None => None
      case Some(s) => Some(HostStatusWord(s))
    else
      match e.status
      case None => None
      case Some(s) => Some(ServiceStatusWord(s))
  }

  /** The ten descriptions, one per event type and status, written out. */
  lemma StatusDescriptionTable(e: Event)
    ensures e.status == Some(Ok) ==> StatusDescription(e) == Some("回復")
    ensures e.status == Some(Warning) ==> StatusDescription(e) == Some("警告")
    ensures e.status == Some(Critical) && e.eventType == Host ==> StatusDescription(e) == Some("ダウン")
    ensures e.status == Some(Critical) && e.eventType == Service ==> StatusDescription(e) == Some("致命的")
    ensures e.status == Some(Unknown) ==> StatusDescription(e) == Some("不明")
    ensures e.status == Some(Unreachable) ==> StatusDescription(e) == Some("到達不能（経路障害の可能性）")
  {
  }

  /**
    A host event and a service event carrying the same status get the same
    description exactly when that status is not Critical.
   */
  lemma StatusTablesDifferOnlyOnCritical(h: Event, v: Event)
    requires h.eventType == Host && v.eventType == Service
    requires h.status == v.status
    ensures StatusDescription(h) == StatusDescription(v) <==> h.status != Some(Critical)
  {
  }

  /** Within one event type, the description identifies the status. */
  lemma StatusDescriptionIdentifiesStatus(a: Event, b: Event)
    requires a.eventType == b.eventType
    ensures StatusDescription(a) == StatusDescription(b) <==> a.status == b.status
  {
  }

  /** The outcome of asking the operating system for the local host name. */
  datatype HostnameLookup =
    | LookupFailed          // the system call failed
    | NotUnicode            // the name is not valid Unicode text
    | Hostname(name: string)

  /** The monitor name: the local host name, or "localhost" when it cannot be had as text. */
  function Monitor(l: HostnameLookup): (r: string)
    ensures l.Hostname? ==> r == l.name
    ensures !l.Hostname? ==> r == "localhost"
  {
    match l
    case Hostname(name) => name
    case _ => "localhost"
  }
}
