# jitsi-plugin, modelled in Dafny

The jitsi-plugin repository lets a Django site run Jitsi video meetings. This
project models three parts of it and proves properties of the model:

* **The connector's session registry.** `JitsiConnector` keeps the configured
  server URL and room prefix, a `connected` flag, a real-time channel handle
  and `active_rooms`. `active_rooms` maps each room name to a room record. A
  record holds the room's name, its feature switches (video, audio, chat, …)
  and its participants, keyed by participant id. The registry operations are
  `create_room`, `join_room`, `leave_room`, `configure_room` and
  `toggle_participant_feature`. The getters are `get_room_info`,
  `get_participant_info` and `get_jitsi_url`. The lifecycle members are
  `initialize`, `connect_websocket` and `disconnect`.
* **Derived properties of the stored records:**
  * a recording's duration as `HH:MM:SS`;
  * whether a scheduled meeting is upcoming, active or past;
  * whether a room has expired.
* **The form rules:**
  * `clean_name` makes a room name URL-friendly;
  * the optional `duration_hours` field must lie in 1..24;
  * `ScheduleMeetingForm.clean` checks the recurrence pattern, the order of
    start and end, and that the start is not in the past, in that order.

The implementation file `jitsi_plus_plugin/core/jitsi_connector.py` is not
part of this model. The connector's behaviour comes from what its test suite,
`tests/test_jitsi_connector.py`, expects of it.

Modules:

| file | module | what it holds |
|---|---|---|
| `wrappers.dfy` | `Wrappers` | `Option` and `Result` |
| `registry.dfy` | `Registry` | the registry as map values, with one function per operation and the lemmas that relate them |
| `signaling.dfy` | `Signaling` | the probe, room and channel URLs; the JSON string escaping for the join frame; a reader for that frame shape, with its round trip |
| `connector.dfy` | `Connector` | the class `JitsiConnector`, whose methods update `activeRooms`, `connected`, `websocket` and the recorded probe in place; each registry method and getter is proved equal to the `Registry` function for it, and the channel address and frame are those of `Signaling` |
| `models.dfy` | `Models` | `duration_formatted`, the meeting phases and room expiry |
| `forms.dfy` | `Forms` | `clean_name`, `duration_hours`, and `clean` as a specification function plus the form class that performs it in place |
| `scenarios.dfy` | `Scenarios` | the recorded usage scenarios replayed against the class contracts |

Modelling choices:

* **Parameters.** Generated identifiers (uuid4), the status of the
  reachability probe, whether the channel opened, and "now" are all
  parameters.
* **Instants.** An instant is an integer count of seconds. A date is a day
  number, a time of day is seconds since midnight, and `datetime.combine` is
  `day * 86400 + time`, all in one fixed time zone.
* **Leaving the last participant.** Two recorded scenarios disagree.
  `tests/test_jitsi_connector.py:120` indexes the room after its only
  participant has left. Line 134 asserts that the room is gone. The model
  follows line 134: a room is removed once its last participant leaves.
  "Participant gone, room kept" is stated only for rooms that still have
  other participants.
* **Empty room name.** `create_room` generates a name only when no name is
  given at all. An empty name `""` is used as it is, so the room is filed
  under `""`. An implementation that tests the name's truthiness would
  generate a name for `""` instead; the implementation file is not part of
  this model, and the model takes the first reading.
* **add_error.** Django's `add_error` removes the field from the cleaned
  data, so `clean` drops `recurrence_pattern` when it records that error.

## Model

| member | source | states |
|---|---|---|
| Registry.AutoRoomName | tests/test_jitsi_connector.py:56-59 | the generated name is the prefix followed by at most 8 leading characters of the identifier |
| Registry.AutoRoomNameExample | tests/test_jitsi_connector.py:56-59 | prefix "test-" with identifier "12345678-90ab-…" gives "test-12345678" |
| Registry.Create | tests/test_jitsi_connector.py:54-76 | the registry gains exactly the named room, with the baseline features video, audio and chat all on and no participants; other rooms are untouched; validity is kept |
| Registry.CreateOnEmpty | tests/test_jitsi_connector.py:63-64 | creating a room in an empty registry leaves exactly that one room |
| Registry.Join | tests/test_jitsi_connector.py:78-106 | the room is created when unknown; the participant is filed under the generated id with the given name and baseline features; the room's other participants and the other rooms are untouched |
| Registry.JoinPreservesValid | tests/test_jitsi_connector.py:94 | after a join every room is still filed under its name and every participant under its id, with the baseline keys present |
| Registry.JoinIds | tests/test_jitsi_connector.py:94 | a join adds exactly the new id to the room's participant ids |
| Registry.JoinAllIds | tests/test_jitsi_connector.py:96-106 | after a run of joins the room holds its earlier ids plus every joined id |
| Registry.JoinAllDistinct | tests/test_jitsi_connector.py:96-106 | joins with distinct fresh ids grow the room by exactly as many participants |
| Registry.Leave | tests/test_jitsi_connector.py:108-140 | succeeds iff the room and the participant exist, and otherwise changes nothing; removes the participant; removes the room iff that participant was its only one; other rooms are untouched; validity is kept |
| Registry.JoinThenLeave | tests/test_jitsi_connector.py:122-134 | a fresh participant joining and then leaving restores the registry, except that a room empty before the join is removed |
| Registry.LastParticipantLeaves | tests/test_jitsi_connector.py:122-134 | create, join and leave in an empty registry succeed and leave it empty again |
| Registry.Configure | tests/test_jitsi_connector.py:142-163 | succeeds iff the room exists, and otherwise changes nothing; the listed keys are overwritten, new keys added and unlisted keys kept; name and participants are unchanged |
| Registry.ConfigureExample | tests/test_jitsi_connector.py:149-163 | switching video and chat off and adding polls keeps audio on and yields exactly those four features |
| Registry.ConfigureIdempotent | tests/test_jitsi_connector.py:156 | applying the same configuration twice gives the same result as once |
| Registry.Toggle | tests/test_jitsi_connector.py:165-182 | succeeds iff the room and the participant exist, and otherwise changes nothing; sets exactly that participant's one feature and leaves its other features, the other participants, the room's features and the other rooms as they were |
| Registry.ToggleIdempotent | tests/test_jitsi_connector.py:174-176 | setting a participant feature twice to the same value is the same as setting it once |
| Registry.RoomInfo | tests/test_jitsi_connector.py:184-196 | a record is returned iff the room exists, and it is the stored record |
| Registry.CreateThenRoomInfo | tests/test_jitsi_connector.py:189-196 | the record create_room returns is the one get_room_info returns afterwards |
| Registry.ParticipantInfo | tests/test_jitsi_connector.py:198-211 | a record is returned iff the room and the participant exist, and it is the stored record |
| Registry.JoinThenParticipantInfo | tests/test_jitsi_connector.py:204-211 | the record join_room returns is the one get_participant_info returns afterwards |
| Signaling.ProbeUrl | tests/test_jitsi_connector.py:34-37 | the probe address is the server URL followed by "/http-pre-bind" |
| Signaling.RoomUrl | tests/test_jitsi_connector.py:213-218 | the meeting URL is the server URL, "/" and the room name |
| Signaling.RoomUrlInjective | tests/test_jitsi_connector.py:213-218 | two rooms of one server share a meeting URL iff they are the same room |
| Signaling.WebsocketUrl | tests/test_jitsi_connector.py:233-235 | the channel address starts with "wss://" and ends with "/xmpp-websocket" around the host |
| Signaling.WebsocketUrlOfScheme | tests/test_jitsi_connector.py:233-235 | both "https://host" and "http://host" give "wss://host/xmpp-websocket" |
| Signaling.Hex4RoundTrip | tests/test_jitsi_connector.py:237 | four hex digits written for a code unit read back as that code unit |
| Signaling.DecodeEscapeChar | tests/test_jitsi_connector.py:237 | reading the JSON escape of any character gives the character back and consumes exactly the escape |
| Signaling.ScanEscaped | tests/test_jitsi_connector.py:237-239 | reading an escaped string up to its closing quote gives the string back and stops right after the quote |
| Signaling.EscapePlain | tests/test_jitsi_connector.py:239 | a string of printable characters other than quote and backslash is written unchanged |
| Signaling.SerializeRoundTrip | tests/test_jitsi_connector.py:236-239 | reading a serialized frame gives back its action and room |
| Signaling.JoinFrameReadsBack | tests/test_jitsi_connector.py:236-239 | the join frame reads back with action "join" and the given room |
| Connector.JitsiConnector.constructor | tests/test_jitsi_connector.py:9-17 | keeps the configuration, starts disconnected, with no channel, no rooms and no probe sent |
| Connector.JitsiConnector.Initialize | tests/test_jitsi_connector.py:27-52 | records the request to the probe address with the 5-second timeout; connected becomes true iff the probe answered status 200, and the result equals the flag |
| Connector.JitsiConnector.CreateRoom | tests/test_jitsi_connector.py:54-76 | returns the new room record and leaves the registry as Registry.Create says, under the given or generated name |
| Connector.JitsiConnector.JoinRoom | tests/test_jitsi_connector.py:78-106 | returns the new participant record and leaves the registry as Registry.Join says |
| Connector.JitsiConnector.LeaveRoom | tests/test_jitsi_connector.py:108-140 | result and registry as Registry.Leave says |
| Connector.JitsiConnector.ConfigureRoom | tests/test_jitsi_connector.py:142-163 | result and registry as Registry.Configure says |
| Connector.JitsiConnector.ToggleParticipantFeature | tests/test_jitsi_connector.py:165-182 | result and registry as Registry.Toggle says |
| Connector.JitsiConnector.GetRoomInfo | tests/test_jitsi_connector.py:184-196 | returns Registry.RoomInfo of the current registry |
| Connector.JitsiConnector.GetParticipantInfo | tests/test_jitsi_connector.py:198-211 | returns Registry.ParticipantInfo of the current registry |
| Connector.JitsiConnector.ConnectWebsocket | tests/test_jitsi_connector.py:220-239 | when the channel opens: returns true, and holds a channel to the wss address on which exactly the join frame was sent; otherwise returns false and changes nothing |
| Connector.JitsiConnector.Disconnect | tests/test_jitsi_connector.py:241-251 | connected becomes false; a close is scheduled iff a channel is held |
| Models.Decimal | docs/jitsi_meetings/models.py:89 | the numeral is a non-empty string of digits, one digit long iff the number is below 10 |
| Models.DecimalRoundTrip | docs/jitsi_meetings/models.py:89 | the numeral of n reads back as n |
| Models.Pad2 | docs/jitsi_meetings/models.py:89 | a padded field has at least two digits, exactly two iff the value is below 100 |
| Models.Pad2RoundTrip | docs/jitsi_meetings/models.py:89 | a padded field reads back as its value |
| Models.NoDurationFormatted | docs/jitsi_meetings/models.py:84-85 | an absent or zero duration is shown as "00:00:00" |
| Models.ZeroBranchAgrees | docs/jitsi_meetings/models.py:84-89 | the divmod formula applied to zero also gives "00:00:00" |
| Models.DurationFields | docs/jitsi_meetings/models.py:87-89 | for d > 0 the fields satisfy hours*3600 + minutes*60 + seconds == d with minutes and seconds below 60; the output is the three padded fields joined by colons, and 8 characters long iff hours < 100 |
| Models.DurationFormattedRoundTrip | docs/jitsi_meetings/models.py:81-89 | the output has the shape H…H:MM:SS and reads back as the duration (zero when absent) |
| Models.DurationExample | docs/jitsi_meetings/models.py:81-89 | 3725 seconds is shown as "01:02:05" |
| Models.ExactlyOnePhase | docs/jitsi_meetings/models.py:113-126 | when start ≤ end, exactly one of upcoming, active and past holds at any instant |
| Models.InvertedMeeting | docs/jitsi_meetings/models.py:113-126 | a meeting ending before it starts is never active, and between the two instants it is upcoming and past at once |
| Models.PhasesMonotone | docs/jitsi_meetings/models.py:113-126 | once past, a meeting stays past; one upcoming now was upcoming at every earlier instant |
| Models.ExpiryProperties | docs/jitsi_meetings/models.py:24-28 | a room without an expiry never expires; otherwise it has expired iff now is after the expiry; once expired it stays expired |
| Forms.ReplaceSpaces | docs/jitsi_meetings/forms.py:36 | same length; each space becomes a hyphen and every other character is kept |
| Forms.Lower | docs/jitsi_meetings/forms.py:36 | same length; each character is lower-cased |
| Forms.CleanNameShape | docs/jitsi_meetings/forms.py:31-37 | a non-empty cleaned name has the input's length, no spaces and no upper-case letters, and agrees with the input character by character |
| Forms.CleanNameIdempotent | docs/jitsi_meetings/forms.py:36 | cleaning a cleaned name changes nothing |
| Forms.CleanNameEmpty | docs/jitsi_meetings/forms.py:33-37 | an absent or empty name is returned unchanged |
| Forms.CleanDurationHours | docs/jitsi_meetings/forms.py:12-15 | accepted iff absent or within 1..24, and then returned as given; each bound it breaks gives its own message |
| Forms.CleanSchedule | docs/jitsi_meetings/forms.py:80-109 | recurring with pattern "none" records the recurrence error; with any of the four parts missing the data is accepted without date checks; otherwise an end not after the start is refused, then a start before now; on acceptance both instants are stored and start < end |
| Forms.OrderCheckFirst | docs/jitsi_meetings/forms.py:100-104 | an end not after the start is reported as such whatever the current time |
| Forms.RecurrenceCheckIndependent | docs/jitsi_meetings/forms.py:89-90 | the recurrence error is recorded whatever the dates |
| Forms.AcceptedMeetingIsWellOrdered | docs/jitsi_meetings/forms.py:100-107 | a form with all four parts that clean accepts stores instants with now ≤ start < end |
| Forms.CombineOrdered | docs/jitsi_meetings/forms.py:93-98 | combined instants are ordered by date first, then by time of day |
| Forms.ScheduleMeetingForm.constructor | docs/jitsi_meetings/forms.py:73-75 | the form starts with the submitted data and no errors |
| Forms.ScheduleMeetingForm.AddRecurrenceError | docs/jitsi_meetings/forms.py:90 | appends the recurrence error and drops recurrence_pattern from the cleaned data |
| Forms.ScheduleMeetingForm.Clean | docs/jitsi_meetings/forms.py:80-109 | the result and the new cleaned data are those of Forms.CleanSchedule on the old data, and its errors are appended to the old ones |

## Left out

- The reachability GET of `initialize`: network I/O. The model records the request's address and timeout, and the probe's status is a parameter.
- Opening the websocket and sending on it: network I/O. Whether the channel opened is a parameter.
- Connector.JitsiConnector.ConnectWebsocket: where the source raises the transport error to the caller, the model returns false and changes nothing. A send that fails after a successful open is treated the same as a failed open.
- The asynchronous close task that `disconnect` schedules: concurrency. The model reports only whether a close is scheduled.
- Locking: the model is sequential.
- uuid4 randomness: generated identifiers are parameters. Freshness of an id is a precondition where a property needs it.
- Registry.Create: on a name already in the registry the model replaces the room, as a dict assignment would. No recorded scenario fixes this case.
- Aliasing of returned records: the model returns record values. A caller mutating a returned dict and thereby the registry is not modelled.
- `json.loads` in general: only the two-field object shape that the connector writes is read back.
- Signaling.DecodeUnicode: refuses a lone surrogate escape, which Python's decoder accepts. A Python room name can hold a lone surrogate, which `json.dumps` writes as such an escape; a Dafny `char` cannot hold one, so room names with lone surrogates are outside the model.
- Unicode-aware `str.lower()`: only ASCII letters are lower-cased.
- Time zones, `timezone.make_aware` and `timezone.now()`: instants are integer seconds in one zone, and "now" is a parameter.
- Django field validation other than the `duration_hours` bounds: the required-field checks, EmailField and ModelMultipleChoiceField.
- The `__init__` participant queryset.
- `generate_host_url` and `generate_guest_url`: calls into jitsi_py.
- `__str__` methods.
- `docs/jitsi_meetings/views.py`, `utils.py`, `admin.py`, `urls.py`, `signals.py` and `apps.py`: request handling, e-mail, tokens and framework registration, outside the modelled core.
