/**
  The subject line of the notification mail, and a reader that takes a
  subject line apart again into its bracketed tag, its status word and the
  remainder.
 */
module Subjects {
  import opened Wrappers
  import opened EventModel
  import opened Phrases
  import opened Text

  /** The separator between the event's target and the monitor name. */
  const ByMarker: string := "    by "

  /**
    The subject line:
    "[PROBLEM|RECOVERY] <word>: <target>    by <monitor>", where a host event
    shows its host state word and its host, and a service event shows its
    status (UNKNOWN when absent) and "host/service" ("?" for a missing service).
   */
  function Subject(e: Event, monitor: string): (r: string)
    ensures EndsWith(r, ByMarker + monitor)
  {
    if e.IsHost() then
      "[" + NotificationTypeName(e.notificationType) + "] " + HostStatus(e) + ": "
        + e.host + ByMarker + monitor
    else
      "[" + NotificationTypeName(e.notificationType) + "] " + StatusName(e.status.GetOr(Unknown)) + ": "
        + e.host + "/" + e.service.GetOr("?") + ByMarker + monitor
  }

  /** The three parts of a subject line: "[tag] word: rest". */
  datatype SubjectHead = SubjectHead(tag: string, word: string, rest: string)

  /** The text a subject head is read from. */
  function Join(h: SubjectHead): string
  {
    "[" + h.tag + "] " + h.word + ": " + h.rest
  }

  /** `Join` written as the nesting the reader takes apart. */
  lemma JoinNested(h: SubjectHead)
    ensures Join(h) == ['['] + (h.tag + [']'] + ([' '] + (h.word + [':'] + ([' '] + h.rest))))
  {
  }

  /** What follows a leading `c`, if `s` starts with one. */
  function Skip(c: char, s: string): (r: Option<string>)
    ensures r.Some? <==> |s| > 0 && s[0] == c
    ensures r.Some? ==> s == [c] + r.value
  {
    if |s| > 0 && s[0] == c then Some(s[1..]) else None
  }

  /** Reads " word: rest" after the tag `tag` has been read. */
  function ReadWordAndRest(tag: string, s: string): (r: Option<SubjectHead>)
    ensures r.Some? ==> r.value.tag == tag && ':' !in r.value.word
    ensures r.Some? ==> s == [' '] + (r.value.word + [':'] + ([' '] + r.value.rest))
  {
    match Skip(' ', s)
    case None => None
    case Some(s1) =>
      match SplitAt(s1, ':')
      case None => None
      case Some((word, s2)) =>
        match Skip(' ', s2)
        case None => None
        case Some(rest) => Some(SubjectHead(tag, word, rest))
  }

  /**
    Reads "[tag] word: rest", where the tag ends at the first ']' and the word
    at the first ':' after it.
   */
  function ReadSubject(s: string): (r: Option<SubjectHead>)
    ensures r.Some? ==> Join(r.value) == s && ']' !in r.value.tag && ':' !in r.value.word
  {
    match Skip('[', s)
    case None => None
    case Some(s1) =>
      match SplitAt(s1, ']')
      case None => None
      case Some((tag, s2)) =>
        var r := ReadWordAndRest(tag, s2);
        if r.Some? then JoinNested(r.value); r else r
  }

  /** A word without ':' and a rest read back unchanged after any tag. */
  lemma ReadWordAndRestJoin(tag: string, word: string, rest: string)
    requires ':' !in word
    ensures ReadWordAndRest(tag, [' '] + (word + [':'] + ([' '] + rest))) == Some(SubjectHead(tag, word, rest))
  {
    var s1 := word + [':'] + ([' '] + rest);
    assert Skip(' ', [' '] + s1) == Some(s1);
    SplitAtAfter(word, ':', [' '] + rest);
    assert Skip(' ', [' '] + rest) == Some(rest);
  }

  /** A subject head whose tag has no ']' and whose word has no ':' reads back unchanged. */
  lemma ReadJoin(h: SubjectHead)
    requires ']' !in h.tag && ':' !in h.word
    ensures ReadSubject(Join(h)) == Some(h)
  {
    JoinNested(h);
    var after := [' '] + (h.word + [':'] + ([' '] + h.rest));
    var s1 := h.tag + [']'] + after;
    assert Skip('[', ['['] + s1) == Some(s1);
    SplitAtAfter(h.tag, ']', after);
    ReadWordAndRestJoin(h.tag, h.word, h.rest);
  }

  /** Whether a status word is one a host subject uses. */
  predicate IsHostWord(w: string)
  {
    w == "DOWN" || w == "UP"
  }

  /**
    The parts a subject line is joined from. `Subject` keeps the layout of
    the source's two format strings; this names the three fields the reader
    recovers, and `SubjectIsJoin` proves the two layouts agree.
   */
  function SubjectParts(e: Event, monitor: string): SubjectHead
  {
    if e.IsHost() then
      SubjectHead(NotificationTypeName(e.notificationType), HostStatus(e), e.host + ByMarker + monitor)
    else
      SubjectHead(NotificationTypeName(e.notificationType), StatusName(e.status.GetOr(Unknown)),
        e.host + "/" + e.service.GetOr("?") + ByMarker + monitor)
  }

  /** A subject line is its parts joined as "[tag] word: rest". */
  lemma SubjectIsJoin(e: Event, monitor: string)
    ensures Subject(e, monitor) == Join(SubjectParts(e, monitor))
  {
  }

  /** Neither a notification type's spelling contains ']' nor a status word ':'. */
  lemma SubjectPartsSeparable(e: Event, monitor: string)
    ensures ']' !in SubjectParts(e, monitor).tag && ':' !in SubjectParts(e, monitor).word
  {
  }

  /**
    A subject line is self-describing: it reads back into the notification
    type, a status word that tells host events from service events (the host
    state word for a host, the status with its UNKNOWN fallback for a
    service), and the target followed by the monitor name.
   */
  lemma SubjectReadsBack(e: Event, monitor: string)
    ensures ReadSubject(Subject(e, monitor)).Some?
    ensures var h := ReadSubject(Subject(e, monitor)).value;
      && ParseNotificationType(h.tag) == Some(e.notificationType)
      && (IsHostWord(h.word) <==> e.eventType == Host)
      && (e.eventType == Host ==>
            h.word == HostStatus(e) && h.rest == e.host + ByMarker + monitor)
      && (e.eventType == Service ==>
            && ParseStatus(h.word) == Some(e.status.GetOr(Unknown))
            && h.rest == e.host + "/" + e.service.GetOr("?") + ByMarker + monitor)
  {
    var h := SubjectParts(e, monitor);
    SubjectIsJoin(e, monitor);
    SubjectPartsSeparable(e, monitor);
    ReadJoin(h);
    NotificationTypeSpelling(h.tag, e.notificationType);
    if e.eventType == Service {
      StatusSpelling(h.word, e.status.GetOr(Unknown));
      StatusNameIsNotHostWord(e.status.GetOr(Unknown));
    }
  }

  /** A service subject for an event without a status reads "UNKNOWN" as its word. */
  lemma UnknownStatusWord(e: Event, monitor: string)
    requires e.eventType == Service && e.status.None?
    ensures ReadSubject(Subject(e, monitor)).Some?
    ensures ReadSubject(Subject(e, monitor)).value.word == "UNKNOWN"
  {
    var h := SubjectParts(e, monitor);
    assert h.word == "UNKNOWN";
    SubjectIsJoin(e, monitor);
    SubjectPartsSeparable(e, monitor);
    ReadJoin(h);
  }

  /** No status spelling is a host state word. */
  lemma StatusNameIsNotHostWord(s: Status)
    ensures !IsHostWord(StatusName(s))
  {
  }

  /** A host subject reads neither the status nor the service of the event. */
  lemma HostSubjectIgnoresStatusAndService(a: Event, b: Event, monitor: string)
    requires a.eventType == Host && b.eventType == Host
    requires a.notificationType == b.notificationType && a.host == b.host
    ensures Subject(a, monitor) == Subject(b, monitor)
  {
  }

  /** A sample host problem and its subject line. */
  lemma HostProblemExample(e: Event)
    requires e.eventType == Host && e.notificationType == Problem && e.host == "web01"
    ensures Subject(e, "mon1") == "[PROBLEM] DOWN: web01    by mon1"
  {
  }

  /** A sample service recovery and its subject line. */
  lemma ServiceRecoveryExample(e: Event)
    requires e.eventType == Service && e.notificationType == Recovery && e.host == "web01"
    requires e.service == Some("nginx") && e.status == Some(Ok)
    ensures Subject(e, "mon1") == "[RECOVERY] OK: web01/nginx    by mon1"
  {
    calc {
      Subject(e, "mon1");
      "[" + NotificationTypeName(Recovery) + "] " + StatusName(Ok) + ": " + "web01" + "/" + "nginx" + ByMarker + "mon1";
      "[RECOVERY] " + "OK: " + "web01/nginx" + "    by mon1";
      "[RECOVERY] OK: web01/nginx    by mon1";
    }
  }

  /** A service event missing both its service name and its status. */
  lemma ServiceFallbackExample(e: Event)
    requires e.eventType == Service && e.notificationType == Problem && e.host == "web01"
    requires e.service.None? && e.status.None?
    ensures Subject(e, "mon1") == "[PROBLEM] UNKNOWN: web01/?    by mon1"
  {
    calc {
      Subject(e, "mon1");
      "[" + NotificationTypeName(Problem) + "] " + StatusName(Unknown) + ": " + "web01" + "/" + "?" + ByMarker + "mon1";
      "[PROBLEM] " + "UNKNOWN: " + "web01/?" + "    by mon1";
      "[PROBLEM] UNKNOWN: web01/?    by mon1";
    }
  }
}
