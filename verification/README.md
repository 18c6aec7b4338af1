# nagios-notify rendering rules in Dafny

nagios-notify is a command-line notifier. A monitoring system calls it once per event with the host,
service, status, notification type and timestamp. It renders a Japanese mail and sends it over SMTP.
This project models the notifier's rendering rules in `src/main.rs`. These are the pure functions
that turn a decoded event into display text:

- the event vocabulary (`EventType`, `NotificationType`, `Status`) with the spellings used on the
  command line and in display text (`event_model.dfy`);
- the title, the host state word, the host/service status description tables and the monitor-name
  fallback (`phrases.dfy`);
- the body's date text, with the unparsable-timestamp fallback `不明` (`datetime.dfy`);
- the subject line, with its `UNKNOWN` and `?` fallbacks (`subject.dfy`);
- the template context and the subject, assembled for one run (`notification.dfy`).

The Japanese literals appear exactly as in the source. Dafny strings are sequences of Unicode
characters.

Each rendering has a partner that the model proves against it:

- the spelling tables have parsers, and each pair is proved to be a bijection;
- the title table is proved injective in the two fields it reads;
- the zero-padded date rendering has a reader, and the two are proved inverse to each other;
- the subject line has a reader (`Subjects.ReadSubject`). It is proved to recover the notification
  type, the status word, and the target followed by the monitor name.

The readers are not part of the notifier. They are reference definitions that show no information
is lost or mixed up.

Inputs from outside the program are parameters:

- the date-time library's parse of the raw timestamp is a function `parse: string -> Option<ValidDateTime>`;
- the operating system's host-name lookup is a `HostnameLookup` value (failed, not Unicode, or a name).

The program looks up the monitor name twice: once for the body and once for the subject. The model
gives `Notification.Compose` one lookup outcome for each. It proves that the subject ends with the
monitor name the body shows when the two outcomes agree. `Notification.MonitorLookupsMayDisagree`
shows that the two names can differ when they do not. Rendering one event twice with the same inputs
gives identical text, because every member is a function.

## Model

| member | source | states |
|---|---|---|
| EventModel.ParseEventType | src/main.rs:75-81 | an event type argument is accepted exactly when it is `host` or `service` |
| EventModel.EventTypeNameTable | src/main.rs:75-81 | Host is spelled `host` and Service `service` |
| EventModel.NotificationTypeNameTable | src/main.rs:83-91 | Problem is spelled `PROBLEM` and Recovery `RECOVERY` |
| EventModel.StatusNameTable | src/main.rs:93-110 | the five statuses are spelled `OK`, `WARNING`, `CRITICAL`, `UNKNOWN`, `UNREACHABLE` in that order |
| EventModel.EventTypeSpelling | src/main.rs:75-81 | parsing a spelling gives an event type exactly when the spelling is that type's name |
| EventModel.ParseNotificationType | src/main.rs:83-91 | a notification type is accepted exactly when it is `PROBLEM` or `RECOVERY` |
| EventModel.NotificationTypeSpelling | src/main.rs:83-91 | the value name and display string `PROBLEM`/`RECOVERY` correspond one-to-one with the two notification types |
| EventModel.ParseStatus | src/main.rs:93-110 | a status is accepted exactly when it is one of the five upper-case names |
| EventModel.StatusSpelling | src/main.rs:93-110 | `OK`, `WARNING`, `CRITICAL`, `UNKNOWN`, `UNREACHABLE` correspond one-to-one with the five statuses |
| Phrases.TitleTypeName | src/main.rs:249-255 | the noun is `ホスト` exactly for host events and `サービス` exactly for service events |
| Phrases.TitleStatusDescription | src/main.rs:257-263 | the tense phrase is `が正常状態に復帰` exactly for a recovery and `に問題が発生` exactly for a problem |
| Phrases.Title | src/main.rs:235-247 | the title is the noun followed by the tense phrase, and the generic `何らかの問題が発生（詳細不明）` branch is never taken |
| Phrases.TitleTable | src/main.rs:235-263 | the four possible titles, written out for each event type and notification type |
| Phrases.TitleIdentifiesTypes | src/main.rs:235-263 | two events get the same title if and only if they agree on event type and notification type, so status, host, service and output are never read |
| Phrases.HostStatus | src/main.rs:286-291 | the host word is `DOWN` exactly for a problem and `UP` exactly for a recovery, with no other case |
| Phrases.StatusDescription | src/main.rs:293-311 | the description is absent exactly when the status is absent, for both event types; Critical reads `ダウン` for a host and `致命的` for a service |
| Phrases.StatusDescriptionTable | src/main.rs:293-311 | all ten descriptions: 回復, 警告, 不明 and 到達不能（経路障害の可能性） for Ok, Warning, Unknown and Unreachable in both tables; Critical reads ダウン for a host and 致命的 for a service |
| Phrases.StatusTablesDifferOnlyOnCritical | src/main.rs:295-309 | a host event and a service event with the same status get the same description if and only if the status is not Critical |
| Phrases.StatusDescriptionIdentifiesStatus | src/main.rs:293-311 | within one event type, two events get the same description if and only if they carry the same status |
| Phrases.Monitor | src/main.rs:229-233 | the monitor name is the host name when one could be read as text, and `localhost` otherwise |
| DateTimeText.Pad2 | src/main.rs:225 | a two-digit field is two decimal digits whose value is the number, with a leading zero below ten |
| DateTimeText.ReadFormatStamp | src/main.rs:225 | reading the `MM月DD日 HH時MM分` rendering gives back the month, day, hour and minute that were rendered |
| DateTimeText.FormatReadLocal | src/main.rs:225 | every string of the rendering's shape is the rendering of the fields read from it |
| DateTimeText.Datetime | src/main.rs:222-227 | the date text is `不明` if and only if parsing failed; otherwise it reads back as the parsed month, day, hour and minute; it never fails |
| Subjects.Subject | src/main.rs:265-284 | every subject ends with `    by ` and the monitor name |
| Subjects.SubjectReadsBack | src/main.rs:265-284 | the subject reads back as `[` + the notification type's display + `] ` + word + `: ` + target + `    by ` + monitor; the word is a host word exactly for host events; a host shows its host state word and host; a service shows its status (`UNKNOWN` when absent) and `host/service` (`?` when absent) |
| Subjects.HostSubjectIgnoresStatusAndService | src/main.rs:266-273 | host events with the same notification type and host get the same subject, whatever their status and service |
| Subjects.HostProblemExample | src/main.rs:266-273 | a host problem on `web01` seen by `mon1` has the subject `[PROBLEM] DOWN: web01    by mon1` |
| Subjects.ServiceRecoveryExample | src/main.rs:275-282 | an OK recovery of `nginx` on `web01` seen by `mon1` has the subject `[RECOVERY] OK: web01/nginx    by mon1` |
| Subjects.ServiceFallbackExample | src/main.rs:275-282 | a service problem without status or service name has the subject `[PROBLEM] UNKNOWN: web01/?    by mon1` |
| Notification.HostAddress | src/main.rs:157 | the body's host address is the event's host address, or `?` when the event has none |
| Notification.BodyContext | src/main.rs:157-165 | the template context always exists and holds the event, its title, date text, monitor name, host address and status description; date and monitor fall back to placeholders, the title is never the generic one, and the status description is absent exactly when the status is |
| Notification.Compose | src/main.rs:159-182 | the body context and the subject are built from the event, each with its own host-name lookup; when both lookups have the same outcome, the subject ends with the monitor name that the body shows |
| Notification.MonitorLookupsMayDisagree | src/main.rs:163-281 | when the body's lookup gives a name and the subject's lookup fails, the body shows the name and the subject ends with `localhost` |
| Notification.MissingStatusAsymmetry | src/main.rs:278-303 | a service event without a status shows `UNKNOWN` in the subject but has no description in the body |

## Left out

- `main`, the rolling log file and the exit code (src/main.rs:112-139): process I/O.
- `load_config` (src/main.rs:141-146): file reading and YAML decoding.
- Template loading and rendering in `create_body` (src/main.rs:148-168): a template-engine call on an
  external file. Only the context values handed to the engine are modelled.
- `send_mail` and `mailer_name` (src/main.rs:170-220): mailbox parsing, message building, the SMTP
  transport and the build-time version string are library calls or network I/O. Only the subject is
  modelled.
- Command-line parsing (src/main.rs:18-60): the model starts from a decoded `Event`. The spelling
  tables are modelled with their parsers. The parsers match exactly, because the argument parser's
  `ignore_case` setting defaults to false and the code does not change it.
- DateTimeText.Datetime: the library's parse of `%a %b %d %H:%M:%S %Z %Y` is not modelled. It is a
  parameter, so only the fallback and the output pattern are stated. Whether the library accepts the
  time-zone field at all is library behaviour outside this model.
- Phrases.Monitor: the operating-system host-name call is a parameter. An empty host name is passed
  through unchanged, as in the code.
