/**
  Assembly of one notification: the named values handed to the body
  template and the subject line of the mail.
 */
module Notification {
  import opened Wrappers
  import opened EventModel
  import opened Phrases
  import opened DateTimeText
  import opened Subjects
  import opened Text

  /** The host address shown in the body, "?" when the event carries none. */
  function HostAddress(e: Event): (r: string)
    ensures e.hostAddress.Some? ==> r == e.hostAddress.value
    ensures e.hostAddress.None? ==> r == "?"
  {
    e.hostAddress.GetOr("?")
  }

  /** The named values the body template is rendered with. */
  datatype RenderContext = RenderContext(
    args: Event,
    title: string,
    datetime: string,
    monitor: string,
    hostAddress: string,
    statusDescription: Option<string>)

  /**
    The template context. Building it never fails: an unparsable timestamp,
    an unavailable host name and a missing host address all degrade to
    placeholders, while a missing status stays absent.
   */
  function BodyContext(e: Event, parse: string -> Option<ValidDateTime>, lookup: HostnameLookup): (ctx: RenderContext)
    ensures ctx.args == e
    ensures ctx.title == Title(e) && ctx.title != GenericTitle
    ensures ctx.datetime == Datetime(e, parse)
    ensures ctx.monitor == Monitor(lookup)
    ensures ctx.hostAddress == HostAddress(e)
    ensures ctx.statusDescription == StatusDescription(e)
    ensures ctx.datetime == UnknownDate <==> parse(e.datetime).None?
    ensures !lookup.Hostname? ==> ctx.monitor == "localhost"
    ensures e.hostAddress.None? ==> ctx.hostAddress == "?"
    ensures ctx.statusDescription.None? <==> e.status.None?
  {
    RenderContext(
      e,
      Title(e),
      Datetime(e, parse),
      Monitor(lookup),
      HostAddress(e),
      StatusDescription(e))
  }

  /** What one run produces before delivery: the subject line and the body context. */
  datatype Mail = Mail(subject: string, context: RenderContext)

  /**
    One run's notification. The host name is looked up twice, once for the
    body and once for the subject, and each lookup may have its own outcome.
    Only when both lookups agree does the subject end with the monitor name
    the body shows; otherwise one may read "localhost" and the other the
    real name.
   */
  function Compose(e: Event, parse: string -> Option<ValidDateTime>,
                   bodyLookup: HostnameLookup, subjectLookup: HostnameLookup): (m: Mail)
    ensures m.context == BodyContext(e, parse, bodyLookup)
    ensures m.subject == Subject(e, Monitor(subjectLookup))
    ensures bodyLookup == subjectLookup ==> EndsWith(m.subject, ByMarker + m.context.monitor)
  {
    var context := BodyContext(e, parse, bodyLookup);
    var subject := Subject(e, Monitor(subjectLookup));
    Mail(subject, context)
  }

  /** The two monitor names can differ: a failed second lookup gives "localhost" in the subject only. */
  lemma MonitorLookupsMayDisagree(e: Event, parse: string -> Option<ValidDateTime>, name: string)
    requires name != "localhost"
    ensures Compose(e, parse, Hostname(name), LookupFailed).context.monitor == name
    ensures EndsWith(Compose(e, parse, Hostname(name), LookupFailed).subject, ByMarker + "localhost")
  {
  }

  /**
    A service event without a status shows "UNKNOWN" in the subject but has
    no status description in the body: the two fallbacks differ.
   */
  lemma MissingStatusAsymmetry(e: Event, parse: string -> Option<ValidDateTime>,
                                bodyLookup: HostnameLookup, subjectLookup: HostnameLookup)
    requires e.eventType == Service && e.status.None?
    ensures ReadSubject(Compose(e, parse, bodyLookup, subjectLookup).subject).Some?
    ensures ReadSubject(Compose(e, parse, bodyLookup, subjectLookup).subject).value.word == "UNKNOWN"
    ensures Compose(e, parse, bodyLookup, subjectLookup).context.statusDescription.None?
  {
    var m := Compose(e, parse, bodyLookup, subjectLookup);
    UnknownStatusWord(e, Monitor(subjectLookup));
    assert m.subject == Subject(e, Monitor(subjectLookup));
  }
}
