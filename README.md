# SmartwatchCompanionAppV2 core, modelled in Dafny

The companion app relays the phone's status-bar notifications to an ESP32
smartwatch over Bluetooth Low Energy. This project models its three pieces of
logic and proves properties about them:

- **The notification listener** (`NLService`). It encodes each active
  notification as one text record, `app,title;text;info;sub;bigtitle;[extra]`
  followed by a newline. On a "list" command it broadcasts these records as a
  batch between two empty markers. A "clearall" command dismisses every
  notification instead.
  - `JavaText` models the Java string operations it uses.
  - `NotificationCodec` holds the pure encoding and the batch as a function.
  - `NotificationListener` holds the receiver as a class whose loop appends
    the broadcasts. The loop is proved to produce exactly that batch.
- **The scan receiver** (`BLEScanReceiver`). Its LE scan callback keeps a list
  of discovered devices with no duplicate address: a pure add-if-absent update
  plus a class whose search loop is proved to perform it. Its broadcast
  handler reacts to classic discovery and to adapter state changes (`BleScan`).
- **The GATT client** (`BLEGATT`). It has a nullable connection handle, and
  every call into the Bluetooth stack is guarded by the adapter, the connect
  permission and null checks.
  - Each operation is a step function returning the next state and the
    transport calls it issued.
  - The `Gatt.BleGatt` class performs the same guards imperatively, with a
    ghost log of transport calls, and is proved to take exactly those steps.
  - The fixed UUIDs and descriptor values are in `Uuids`.

The Bluetooth stack, the package manager and the permission system are
abstract. What they answer comes in as parameters:

- whether an adapter exists;
- the device an address resolves to;
- the handle `connectGatt` returns;
- the services a discovery found;
- the package labels;
- whether a permission is granted at the moment of the call.

`sendBroadcast`, `stopLeScan` and the screen update are recorded in order as
outputs. A `cancelAllNotifications` request is only counted, in a counter kept
apart from the broadcasts, so its order relative to them is not recorded.

How the listener encodes a notification:

- Each of the five fields has its newlines deleted and each `;` turned into
  `,`.
- Only the base record (label and five fields) is filtered to ASCII. The
  category extra is appended after the filter. The filter removes non-ASCII
  characters only, so ASCII control characters stay.
- The e-mail extra is the shortened, sanitised long-form text. The message
  extra is the raw messages extra: neither shortened nor sanitised, so it can
  hold `;` and newlines.
- The app label is neither sanitised nor checked. A `;` in it shifts every
  positional field by one (`SeparatorInLabelShiftsFields`), and a newline in
  it splits the record's line in two.
- Self-suppression is a substring test for "ESP32 Smartwatch Companion App"
  on the whole record.
- A batch has one begin marker and one end marker.
- The label is read with a `(String)` cast. A label that is some other
  `CharSequence` makes the cast throw. The outer handler's log message reads
  the label again, and that read throws out of `onReceive`, so the batch ends
  without its end marker (see "## Findings").

## Model

| member | source | states |
|---|---|---|
| NotificationCodec.IfNotNull | SmartwatchCompanionAppV2/app/src/main/java/com/example/smartwatchcompanionappv2/NLService.java:121-123 | null reads as "", any other string is returned as is |
| NotificationCodec.ShortenString | SmartwatchCompanionAppV2/app/src/main/java/com/example/smartwatchcompanionappv2/NLService.java:112-119 | "" for null; an input of at most 240 characters unchanged; a longer one becomes exactly 243 characters: its first 240 and then "..." |
| NotificationCodec.AppName | SmartwatchCompanionAppV2/app/src/main/java/com/example/smartwatchcompanionappv2/NLService.java:125-135 | the label of an installed package whose label is a `String`; "" when the context or the package name is null or the package is unknown; None (the cast throws) exactly when the installed label is not a `String` |
| NotificationCodec.Sanitize | SmartwatchCompanionAppV2/app/src/main/java/com/example/smartwatchcompanionappv2/NLService.java:78 | the result holds no ';' and no newline, is no longer than the input, and a field that already had neither comes out unchanged; its exact value is fixed by `SanitizeConcat` and `SanitizeChar` |
| NotificationCodec.SanitizeIdempotent | SmartwatchCompanionAppV2/app/src/main/java/com/example/smartwatchcompanionappv2/NLService.java:78-82 | sanitising a sanitised field changes nothing |
| NotificationCodec.SanitizeConcat | SmartwatchCompanionAppV2/app/src/main/java/com/example/smartwatchcompanionappv2/NLService.java:78 | sanitising a concatenation is concatenating the sanitised parts |
| NotificationCodec.SanitizeChar | SmartwatchCompanionAppV2/app/src/main/java/com/example/smartwatchcompanionappv2/NLService.java:78 | on one character: ';' becomes ',', a newline disappears, any other character is kept |
| NotificationCodec.SanitizeShortened | SmartwatchCompanionAppV2/app/src/main/java/com/example/smartwatchcompanionappv2/NLService.java:89 | a long-form text over 240 characters becomes its sanitised first 240 characters followed by "..." |
| NotificationCodec.Field | SmartwatchCompanionAppV2/app/src/main/java/com/example/smartwatchcompanionappv2/NLService.java:78 | a field, null as "", then sanitised, holds no ';' and no newline |
| NotificationCodec.Fields | SmartwatchCompanionAppV2/app/src/main/java/com/example/smartwatchcompanionappv2/NLService.java:78-82 | always exactly five fields (title, text, info, sub, big title), none holding ';' or a newline; an absent extra is an empty field, never omitted |
| NotificationCodec.Extra | SmartwatchCompanionAppV2/app/src/main/java/com/example/smartwatchcompanionappv2/NLService.java:84-96 | an e-mail's extra holds no ';' or newline and is at most 243 long; it is the sanitised long-form text when that has at most 240 characters, and the sanitised first 240 characters followed by "..." when longer; an e-mail without long-form text appends nothing; a message appends its messages extra as is, unsanitised and untruncated; any other category appends nothing |
| NotificationCodec.Terminated | SmartwatchCompanionAppV2/app/src/main/java/com/example/smartwatchcompanionappv2/NLService.java:78-82 | each field followed by ';': empty exactly when there are no fields; `TerminatedEnds` and `SplitTerminated` state that it ends with ';' and splits back into the fields |
| NotificationCodec.Layout | SmartwatchCompanionAppV2/app/src/main/java/com/example/smartwatchcompanionappv2/NLService.java:77-82 | the record starts with the label and then ','; the fields follow, each ended by ';' (`LayoutEnds`, `SplitLayout`) |
| NotificationCodec.LayoutEnds | SmartwatchCompanionAppV2/app/src/main/java/com/example/smartwatchcompanionappv2/NLService.java:82 | a layout with at least one field ends with ';' |
| NotificationCodec.Base | SmartwatchCompanionAppV2/app/src/main/java/com/example/smartwatchcompanionappv2/NLService.java:77-83 | the base record, built from the label and the five fields and then filtered, is all ASCII |
| NotificationCodec.Record | SmartwatchCompanionAppV2/app/src/main/java/com/example/smartwatchcompanionappv2/NLService.java:76-96 | the `data` string is absent exactly when the outer `try` throws: the label cast fails or the field reads throw |
| NotificationCodec.BaseLayout | SmartwatchCompanionAppV2/app/src/main/java/com/example/smartwatchcompanionappv2/NLService.java:77-83 | the base record is the filtered label, ',', and the five filtered fields each followed by ';'; it is all ASCII and ends with ';' |
| NotificationCodec.BaseIsLayout | SmartwatchCompanionAppV2/app/src/main/java/com/example/smartwatchcompanionappv2/NLService.java:77-83 | filtering the whole record equals filtering the label and each field separately, with the separators kept in place |
| NotificationCodec.LayoutFilter | SmartwatchCompanionAppV2/app/src/main/java/com/example/smartwatchcompanionappv2/NLService.java:77-83 | the ASCII filter commutes with the record layout |
| NotificationCodec.TerminatedFilter | SmartwatchCompanionAppV2/app/src/main/java/com/example/smartwatchcompanionappv2/NLService.java:78-83 | filtering the `f1;f2;...;` part is terminating the filtered fields: the ';' separators survive |
| NotificationCodec.TerminatedEnds | SmartwatchCompanionAppV2/app/src/main/java/com/example/smartwatchcompanionappv2/NLService.java:82 | the terminated fields end with ';' |
| NotificationCodec.RecordFields | SmartwatchCompanionAppV2/app/src/main/java/com/example/smartwatchcompanionappv2/NLService.java:77-96 | read-back: when the label and the extra hold no ';', splitting the record at ';' gives the filtered label joined by ',' to the filtered title, the four other filtered fields, and the extra ("" when the category step threw), in their fixed positions |
| NotificationCodec.SplitLayout | SmartwatchCompanionAppV2/app/src/main/java/com/example/smartwatchcompanionappv2/NLService.java:77-82 | splitting a layout of separator-free parts returns the parts in order |
| NotificationCodec.SplitTerminated | SmartwatchCompanionAppV2/app/src/main/java/com/example/smartwatchcompanionappv2/NLService.java:78-82 | splitting `f1;...;fk;x` gives back f1..fk and x when none holds ';' |
| NotificationCodec.FilterEachKeepsNoSeparator | SmartwatchCompanionAppV2/app/src/main/java/com/example/smartwatchcompanionappv2/NLService.java:83 | the ASCII filter adds no ';' to a field |
| NotificationCodec.Event | SmartwatchCompanionAppV2/app/src/main/java/com/example/smartwatchcompanionappv2/NLService.java:97-103 | a notification is broadcast iff its record could be built and does not contain the self-marker, and what is broadcast is the record followed by a newline |
| NotificationCodec.EventShape | SmartwatchCompanionAppV2/app/src/main/java/com/example/smartwatchcompanionappv2/NLService.java:97-100 | every broadcast line is non-empty, ends with a newline and does not contain the self-marker |
| NotificationCodec.SelfNotificationSuppressed | SmartwatchCompanionAppV2/app/src/main/java/com/example/smartwatchcompanionappv2/NLService.java:77-100 | a notification whose app label contains "ESP32 Smartwatch Companion App" is never broadcast: the marker survives the ASCII filter |
| NotificationCodec.SelfMarkerInBase | SmartwatchCompanionAppV2/app/src/main/java/com/example/smartwatchcompanionappv2/NLService.java:77-83 | a marker in the app label is still in the filtered base record |
| NotificationCodec.ContainsInLayout | SmartwatchCompanionAppV2/app/src/main/java/com/example/smartwatchcompanionappv2/NLService.java:77-82 | text contained in the label is contained in the laid-out record |
| NotificationCodec.SeparatorInLabelShiftsFields | SmartwatchCompanionAppV2/app/src/main/java/com/example/smartwatchcompanionappv2/NLService.java:77-82 | a label `a;b` makes the record split into seven parts, `a` first and `b` joined to the title second, instead of six |
| NotificationCodec.Outcomes | SmartwatchCompanionAppV2/app/src/main/java/com/example/smartwatchcompanionappv2/NLService.java:74-104 | one outcome per active notification, in enumeration order, each that notification's broadcast or nothing |
| NotificationCodec.EventLines | SmartwatchCompanionAppV2/app/src/main/java/com/example/smartwatchcompanionappv2/NLService.java:97-100 | one notification adds at most one line to a batch |
| NotificationCodec.Events | SmartwatchCompanionAppV2/app/src/main/java/com/example/smartwatchcompanionappv2/NLService.java:74-104 | a batch never has more event lines than active notifications |
| NotificationCodec.FirstCastFailure | SmartwatchCompanionAppV2/app/src/main/java/com/example/smartwatchcompanionappv2/NLService.java:74-104 | the index of the first notification whose label cast fails, or the number of notifications when none fails: every notification before it casts |
| NotificationCodec.ListBatch | SmartwatchCompanionAppV2/app/src/main/java/com/example/smartwatchcompanionappv2/NLService.java:69-108 | the batch as the code sends it starts with the begin marker "" and is at most two longer than the number of active notifications |
| NotificationCodec.FramedListBatch | SmartwatchCompanionAppV2/app/src/main/java/com/example/smartwatchcompanionappv2/NLService.java:69-108 | the intended batch starts and ends with the marker "" |
| NotificationCodec.Emitted | SmartwatchCompanionAppV2/app/src/main/java/com/example/smartwatchcompanionappv2/NLService.java:74-104 | a batch never broadcasts more lines than there are notifications |
| NotificationCodec.EmittedConcat | SmartwatchCompanionAppV2/app/src/main/java/com/example/smartwatchcompanionappv2/NLService.java:74-104 | the lines of two stretches of outcomes are the lines of each, in order |
| NotificationCodec.EventsConcat | SmartwatchCompanionAppV2/app/src/main/java/com/example/smartwatchcompanionappv2/NLService.java:74-104 | the broadcasts for two stretches of notifications are each stretch's broadcasts, in order: no notification influences another |
| NotificationCodec.EventsAppend | SmartwatchCompanionAppV2/app/src/main/java/com/example/smartwatchcompanionappv2/NLService.java:74-104 | one more notification adds exactly its own broadcast, if it has one, at the end |
| NotificationCodec.FailedNotificationSkipped | SmartwatchCompanionAppV2/app/src/main/java/com/example/smartwatchcompanionappv2/NLService.java:101-103 | a notification whose fields cannot be read (null extras) is skipped and the events around it are unchanged |
| NotificationCodec.EmittedSkipsNone | SmartwatchCompanionAppV2/app/src/main/java/com/example/smartwatchcompanionappv2/NLService.java:101-103 | an outcome with nothing to broadcast leaves no line between its neighbours' lines |
| NotificationCodec.EmittedFrom | SmartwatchCompanionAppV2/app/src/main/java/com/example/smartwatchcompanionappv2/NLService.java:97-100 | every emitted line is the value of some outcome, and every outcome that holds a line has it emitted |
| NotificationCodec.EventsShape | SmartwatchCompanionAppV2/app/src/main/java/com/example/smartwatchcompanionappv2/NLService.java:74-104 | every line of a batch is a non-empty, newline-terminated record without the self-marker |
| NotificationCodec.BatchFraming | SmartwatchCompanionAppV2/app/src/main/java/com/example/smartwatchcompanionappv2/NLService.java:69-108 | the intended "list" batch is "" first and "" last with only record lines between; it is at most two longer than the number of active notifications |
| NotificationCodec.ListWithSelfNotification | SmartwatchCompanionAppV2/app/src/main/java/com/example/smartwatchcompanionappv2/NLService.java:69-108 | with the app's own notification and one other active, the batch is the two markers around the other's line |
| NotificationCodec.ListBatchTruncates | SmartwatchCompanionAppV2/app/src/main/java/com/example/smartwatchcompanionappv2/NLService.java:69-108 | the batch as sent is always a prefix of the intended batch, and equal to it exactly when no label cast fails |
| NotificationCodec.StyledLabelEndsBatch | SmartwatchCompanionAppV2/app/src/main/java/com/example/smartwatchcompanionappv2/NLService.java:101-107 | when the first of two notifications has a non-`String` label, the batch as sent is the begin marker alone, while the intended batch just skips that notification |
| NotificationListener.BuildRecord | SmartwatchCompanionAppV2/app/src/main/java/com/example/smartwatchcompanionappv2/NLService.java:76-96 | the record built step by step (label read, `data =`, the ASCII filter, `data +=` inside the inner `try`) is the encoder's record, None when the label cast or the field reads throw |
| NotificationListener.Listener.Relay | SmartwatchCompanionAppV2/app/src/main/java/com/example/smartwatchcompanionappv2/NLService.java:75-103 | one loop pass broadcasts exactly the notification's event, and ends the loop by an exception exactly when the label cast fails |
| NotificationListener.Listener.constructor | SmartwatchCompanionAppV2/app/src/main/java/com/example/smartwatchcompanionappv2/NLService.java:28-35 | a new listener has broadcast nothing and dismissed nothing |
| NotificationListener.Listener.OnReceive | SmartwatchCompanionAppV2/app/src/main/java/com/example/smartwatchcompanionappv2/NLService.java:65-109 | "clearall" requests one dismissal and broadcasts nothing; "list" appends exactly the batch as the code sends it, and reports an escaping exception exactly when some label cast fails; any other or absent command changes nothing |
| NotificationListener.Listener.ListActive | SmartwatchCompanionAppV2/app/src/main/java/com/example/smartwatchcompanionappv2/NLService.java:69-108 | the loop appends "" and the events in order; with no failing label cast it then appends the end marker "", otherwise it stops at the first failing notification, with only the events before it and no end marker |
| JavaText.DeleteAll | SmartwatchCompanionAppV2/app/src/main/java/com/example/smartwatchcompanionappv2/NLService.java:78 | `replace("\n", "")`: no occurrence is left, the result is no longer, and a string without it is unchanged |
| JavaText.DeleteAllMembers | SmartwatchCompanionAppV2/app/src/main/java/com/example/smartwatchcompanionappv2/NLService.java:78 | the set of characters left is the input's other characters |
| JavaText.DeleteAllIsSubsequence | SmartwatchCompanionAppV2/app/src/main/java/com/example/smartwatchcompanionappv2/NLService.java:78 | deletion keeps the remaining characters in order |
| JavaText.DeleteAllConcat | SmartwatchCompanionAppV2/app/src/main/java/com/example/smartwatchcompanionappv2/NLService.java:78 | deleting from a concatenation is concatenating the parts with the character deleted |
| JavaText.DeleteAllChar | SmartwatchCompanionAppV2/app/src/main/java/com/example/smartwatchcompanionappv2/NLService.java:78 | on one character: the deleted character goes, any other stays |
| JavaText.ReplaceAllConcat | SmartwatchCompanionAppV2/app/src/main/java/com/example/smartwatchcompanionappv2/NLService.java:78 | replacing in a concatenation is concatenating the replaced parts |
| JavaText.ReplaceAll | SmartwatchCompanionAppV2/app/src/main/java/com/example/smartwatchcompanionappv2/NLService.java:78 | `replace(";", ",")`: same length, each position replaced exactly when it held the old character, none left |
| JavaText.AsciiFilter | SmartwatchCompanionAppV2/app/src/main/java/com/example/smartwatchcompanionappv2/NLService.java:83 | `replaceAll("[^\\p{ASCII}]", "")`: the result is all ASCII, no longer, and an ASCII string is unchanged |
| JavaText.AsciiFilterMembers | SmartwatchCompanionAppV2/app/src/main/java/com/example/smartwatchcompanionappv2/NLService.java:83 | a character is kept iff it is in the input and ASCII |
| JavaText.AsciiFilterIsSubsequence | SmartwatchCompanionAppV2/app/src/main/java/com/example/smartwatchcompanionappv2/NLService.java:83 | the filter only removes characters, never reorders them |
| JavaText.AsciiFilterConcat | SmartwatchCompanionAppV2/app/src/main/java/com/example/smartwatchcompanionappv2/NLService.java:83 | filtering a concatenation is concatenating the filtered parts |
| JavaText.AsciiFilterKeepsOccurrence | SmartwatchCompanionAppV2/app/src/main/java/com/example/smartwatchcompanionappv2/NLService.java:83 | an ASCII text contained in a string is still contained after the filter |
| JavaText.Contains | SmartwatchCompanionAppV2/app/src/main/java/com/example/smartwatchcompanionappv2/NLService.java:97 | `contains`: never true for a longer text, always true for the string itself |
| JavaText.ContainsInConcat | SmartwatchCompanionAppV2/app/src/main/java/com/example/smartwatchcompanionappv2/NLService.java:97 | `contains` in either part holds for the concatenation |
| JavaText.ContainsAppendChar | SmartwatchCompanionAppV2/app/src/main/java/com/example/smartwatchcompanionappv2/NLService.java:97-98 | appending the newline neither creates nor hides the marker |
| JavaText.Split | SmartwatchCompanionAppV2/app/src/main/java/com/example/smartwatchcompanionappv2/NLService.java:77-82 | the reader's split at a separator always yields at least one field |
| JavaText.SplitNoSeparator | SmartwatchCompanionAppV2/app/src/main/java/com/example/smartwatchcompanionappv2/NLService.java:77-82 | a separator-free string splits into itself |
| JavaText.SplitField | SmartwatchCompanionAppV2/app/src/main/java/com/example/smartwatchcompanionappv2/NLService.java:77-82 | a separator-free field, the separator and a rest split into the field and the rest's fields |
| Uuids.NotificationUpdateIsCccd | SmartwatchCompanionAppV2/app/src/main/java/com/example/smartwatchcompanionappv2/BLEGATT.java:139-142 | the notification-update characteristic UUID is the CCCD UUID 0x2902, and the enable and disable values differ |
| BleScan.AddIfAbsent | SmartwatchCompanionAppV2/app/src/main/java/com/example/smartwatchcompanionappv2/BLEScanReceiver.java:147-157 | the device is appended at the end iff no entry has its address; otherwise the list is unchanged |
| BleScan.AddIfAbsentKeeps | SmartwatchCompanionAppV2/app/src/main/java/com/example/smartwatchcompanionappv2/BLEScanReceiver.java:149-157 | existing entries are kept in place, the list grows by at most one, the device's address is then listed, and no other address appears |
| BleScan.AddIfAbsentPreservesDistinct | SmartwatchCompanionAppV2/app/src/main/java/com/example/smartwatchcompanionappv2/BLEScanReceiver.java:149-157 | pairwise distinct addresses stay pairwise distinct |
| BleScan.Lookup | SmartwatchCompanionAppV2/app/src/main/java/com/example/smartwatchcompanionappv2/BLEScanReceiver.java:149-154 | the search finds an entry iff one has the address, and what it finds has that address |
| BleScan.LookupAppend | SmartwatchCompanionAppV2/app/src/main/java/com/example/smartwatchcompanionappv2/BLEScanReceiver.java:149-157 | after appending, an earlier entry with the address is still the one found |
| BleScan.Scanned | SmartwatchCompanionAppV2/app/src/main/java/com/example/smartwatchcompanionappv2/BLEScanReceiver.java:144-157 | the list after a scan is never longer than the number of reports |
| BleScan.ScannedDistinct | SmartwatchCompanionAppV2/app/src/main/java/com/example/smartwatchcompanionappv2/BLEScanReceiver.java:147-157 | however often devices are reported, the list holds each address once |
| BleScan.ScannedFirstSeen | SmartwatchCompanionAppV2/app/src/main/java/com/example/smartwatchcompanionappv2/BLEScanReceiver.java:147-157 | for every address the list holds the first device reported with it, and nothing for an address never reported |
| BleScan.NameLabel | SmartwatchCompanionAppV2/app/src/main/java/com/example/smartwatchcompanionappv2/BLEScanReceiver.java:77-85 | a null or empty name is "Unknown Device", an unreadable one "Permission Denied for Name", any other is kept; never empty |
| BleScan.AddressLabel | SmartwatchCompanionAppV2/app/src/main/java/com/example/smartwatchcompanionappv2/BLEScanReceiver.java:87-95 | a null or empty address is "Unknown Address", an unreadable one "Permission Denied for Address", any other is kept; never empty |
| BleScan.ScanReceiver.constructor | SmartwatchCompanionAppV2/app/src/main/java/com/example/smartwatchcompanionappv2/BLEScanReceiver.java:27-36 | a new receiver has no adapter yet and sees the shared device list |
| BleScan.ScanReceiver.OnReceive | SmartwatchCompanionAppV2/app/src/main/java/com/example/smartwatchcompanionappv2/BLEScanReceiver.java:49-134 | the adapter is obtained once; without one nothing happens; the device list is never changed; the only stack call is `stopLeScan`, made exactly on STATE_OFF with scan permission; a classic discovery yields the two log labels |
| BleScan.ScanReceiver.OnLeScan | SmartwatchCompanionAppV2/app/src/main/java/com/example/smartwatchcompanionappv2/BLEScanReceiver.java:144-186 | a null device changes nothing; otherwise the list becomes AddIfAbsent of it, and the screen update is requested exactly when the device was added and the screen is attached |
| Gatt.ConnectStep | SmartwatchCompanionAppV2/app/src/main/java/com/example/smartwatchcompanionappv2/BLEGATT.java:38-59 | without adapter, address, permission or a resolved device nothing changes and no connection is opened; otherwise the device is recorded, the new handle replaces the old, and exactly one connect is issued |
| Gatt.DisconnectStep | SmartwatchCompanionAppV2/app/src/main/java/com/example/smartwatchcompanionappv2/BLEGATT.java:61-71 | the state never changes; a disconnect on the held handle is issued iff adapter, handle and permission are present |
| Gatt.CloseStep | SmartwatchCompanionAppV2/app/src/main/java/com/example/smartwatchcompanionappv2/BLEGATT.java:73-83 | with no handle or no permission nothing happens and the handle is kept; otherwise the handle is closed and cleared |
| Gatt.ConnectionStateStep | SmartwatchCompanionAppV2/app/src/main/java/com/example/smartwatchcompanionappv2/BLEGATT.java:85-99 | the state never changes; discovery on the held handle is started iff the link is connected, permission is granted and a handle is held; a disconnection issues nothing |
| Gatt.NotificationValue | SmartwatchCompanionAppV2/app/src/main/java/com/example/smartwatchcompanionappv2/BLEGATT.java:142 | the CCCD value is the enable value exactly when enabling, the disable value otherwise |
| Gatt.SubscribeStep | SmartwatchCompanionAppV2/app/src/main/java/com/example/smartwatchcompanionappv2/BLEGATT.java:127-148 | nothing without handle or permission; otherwise local notification first, then a CCCD write, iff the characteristic is the notification-update one and has the CCCD |
| Gatt.ServicesDiscoveredStep | SmartwatchCompanionAppV2/app/src/main/java/com/example/smartwatchcompanionappv2/BLEGATT.java:101-125 | nothing is issued unless discovery succeeded with the service and both characteristics present; then it subscribes to the notification characteristic |
| Gatt.SubscriptionIff | SmartwatchCompanionAppV2/app/src/main/java/com/example/smartwatchcompanionappv2/BLEGATT.java:101-148 | discovery subscribes iff status, service, command and notification characteristic, handle and permission are all there, issuing exactly the local enable and, if the descriptor exists, the enabling CCCD write |
| Gatt.Run | SmartwatchCompanionAppV2/app/src/main/java/com/example/smartwatchcompanionappv2/BLEGATT.java:38-165 | no calls change nothing; a single call is exactly that call's step |
| Gatt.RunConcat | SmartwatchCompanionAppV2/app/src/main/java/com/example/smartwatchcompanionappv2/BLEGATT.java:38-165 | running two call sequences back to back is running the first, then the second from where it left the client, with both sets of stack calls in order |
| Gatt.DeniedCallIsInert | SmartwatchCompanionAppV2/app/src/main/java/com/example/smartwatchcompanionappv2/BLEGATT.java:38-148 | a call without permission changes nothing and issues nothing |
| Gatt.NoPermissionNoTraffic | SmartwatchCompanionAppV2/app/src/main/java/com/example/smartwatchcompanionappv2/BLEGATT.java:38-148 | any sequence of calls without the connect permission reaches no part of the stack and leaves the state as it was |
| Gatt.CloseIdempotent | SmartwatchCompanionAppV2/app/src/main/java/com/example/smartwatchcompanionappv2/BLEGATT.java:73-83 | after a granted close, another close, permitted or not, is a no-op |
| Gatt.OpsTargetHeldHandle | SmartwatchCompanionAppV2/app/src/main/java/com/example/smartwatchcompanionappv2/BLEGATT.java:61-148 | every stack call other than opening a connection goes to the handle currently held |
| Gatt.ApplyWritesTargetCccd | SmartwatchCompanionAppV2/app/src/main/java/com/example/smartwatchcompanionappv2/BLEGATT.java:139-143 | a call writes descriptors only to the CCCD of the notification-update characteristic, with the enable or disable value |
| Gatt.DescriptorWritesTargetCccd | SmartwatchCompanionAppV2/app/src/main/java/com/example/smartwatchcompanionappv2/BLEGATT.java:139-143 | in any sequence of calls every descriptor write goes to that CCCD with one of those two values |
| Gatt.ApplyPreservesConsistent | SmartwatchCompanionAppV2/app/src/main/java/com/example/smartwatchcompanionappv2/BLEGATT.java:55-56 | a call never leaves a handle held without its device |
| Gatt.RunPreservesConsistent | SmartwatchCompanionAppV2/app/src/main/java/com/example/smartwatchcompanionappv2/BLEGATT.java:55-82 | no sequence of calls leaves a handle held without its device |
| Gatt.ConnectReplacesHeldHandle | SmartwatchCompanionAppV2/app/src/main/java/com/example/smartwatchcompanionappv2/BLEGATT.java:55-56 | an accepted connect while a handle is held drops it without closing it |
| Gatt.TeardownReleasesHandle | SmartwatchCompanionAppV2/app/src/main/java/com/example/smartwatchcompanionappv2/BLEService.java:74-77 | disconnect then close, with permission, disconnects and closes the held handle in that order and clears it |
| Gatt.TeardownCloseDeniedKeepsHandle | SmartwatchCompanionAppV2/app/src/main/java/com/example/smartwatchcompanionappv2/BLEService.java:74-77 | when the permission is granted for the disconnect but refused for the close, only the disconnect is issued and the handle is kept |
| Gatt.BleGatt.constructor | SmartwatchCompanionAppV2/app/src/main/java/com/example/smartwatchcompanionappv2/BLEGATT.java:27-36 | the adapter is kept only if the manager exists and has one; no handle is held and no call was made |
| Gatt.BleGatt.Connect | SmartwatchCompanionAppV2/app/src/main/java/com/example/smartwatchcompanionappv2/BLEGATT.java:38-59 | returns true exactly when the guards pass, and takes the ConnectStep step |
| Gatt.BleGatt.Disconnect | SmartwatchCompanionAppV2/app/src/main/java/com/example/smartwatchcompanionappv2/BLEGATT.java:61-71 | takes the DisconnectStep step |
| Gatt.BleGatt.Close | SmartwatchCompanionAppV2/app/src/main/java/com/example/smartwatchcompanionappv2/BLEGATT.java:73-83 | takes the CloseStep step |
| Gatt.BleGatt.OnConnectionStateChange | SmartwatchCompanionAppV2/app/src/main/java/com/example/smartwatchcompanionappv2/BLEGATT.java:85-99 | takes the ConnectionStateStep step |
| Gatt.BleGatt.OnServicesDiscovered | SmartwatchCompanionAppV2/app/src/main/java/com/example/smartwatchcompanionappv2/BLEGATT.java:101-125 | takes the ServicesDiscoveredStep step |
| Gatt.BleGatt.SetCharacteristicNotification | SmartwatchCompanionAppV2/app/src/main/java/com/example/smartwatchcompanionappv2/BLEGATT.java:127-148 | takes the SubscribeStep step |
| Gatt.BleGatt.OnCharacteristicRead | SmartwatchCompanionAppV2/app/src/main/java/com/example/smartwatchcompanionappv2/BLEGATT.java:150-157 | changes no state and issues no stack call |
| Gatt.BleGatt.OnCharacteristicChanged | SmartwatchCompanionAppV2/app/src/main/java/com/example/smartwatchcompanionappv2/BLEGATT.java:159-165 | changes no state and issues no stack call |
| Gatt.ServiceOnDestroy | SmartwatchCompanionAppV2/app/src/main/java/com/example/smartwatchcompanionappv2/BLEService.java:72-81 | the service's teardown is the run of a disconnect followed by a close, each with its own permission answer |

## Findings

| source | as written | input that shows it | evidently intended | confidence | as-written member | corrected member |
|---|---|---|---|---|---|---|
| SmartwatchCompanionAppV2/app/src/main/java/com/example/smartwatchcompanionappv2/NLService.java:101-103 | the handler for a failed record calls `getAppNameFromPkgName` again for its log message; when the first failure was the `(String)` cast of the label (:130), the second call throws the same way, and the exception leaves the loop and `onReceive` | two active notifications, the first with a styled (non-`String`) app label: only the begin marker "" is broadcast, nothing for the second, no end marker | the handler absorbs the failure: the first notification is skipped, the second is broadcast, and the end marker is sent | medium; not executed | NotificationCodec.StyledLabelEndsBatch | NotificationCodec.FramedListBatch |

The listener class models the code as written (`ListBatch`). The intended batch
`FramedListBatch` carries the framing proof `BatchFraming`, and
`ListBatchTruncates` states how far apart the two are.

## Left out

- Logging (`Log.*`) is not modelled. Neither are the log messages, except the two labels of a classic discovery.
- String lengths count Unicode code points, while Java counts UTF-16 units. `shortenString` can therefore cut a surrogate pair in the source, and the model does not show that.
- The exception that escapes `onReceive` is not followed further. The receiver is registered without a handler (NLService.java:34), so it runs on the main thread, where an exception out of `onReceive` crashes the app process, the listener service included. The model only records that the exception escaped (`aborted`) and what was broadcast before it.
- `onNotificationPosted`, `onNotificationRemoved`, and the receiver (un)registration in `onCreate`/`onDestroy` of the listener service are not modelled. They only send a UI refresh broadcast or do plumbing.
- `mLeDevices` is a static list shared by every receiver instance. Here it is a field of one receiver, and its initial contents are a constructor parameter.
- `MainActivity.currentDevice` is a static field. Here it is a field of the GATT client.
- Threading is not modelled: each callback is one atomic step. `runOnUiThread` and the second null check of the screen reference are folded into the `uiAttached` flag, so the screen update counts as immediate.
- BleScan.ScanReceiver.OnLeScan: the device name it reads only for logging is not modelled.
- `BluetoothManager`, `BluetoothAdapter`, `BluetoothGatt`, `PackageManager` and `ContextCompat.checkSelfPermission` appear only as parameters and output logs. Their internals, and `UUID.fromString`/`toString` beyond the lower-case canonical form, are not modelled.
- `BLEService` is modelled only through the teardown order of `onDestroy`. Its foreground-service plumbing, `START_STICKY`, and creating a fresh client on each start are not modelled. MainActivity and MainScreen are not part of this model beyond the UUID constants.
- Gatt.BleGatt.OnCharacteristicRead and Gatt.BleGatt.OnCharacteristicChanged: the received value is only logged, so the contract states only that nothing changes.
