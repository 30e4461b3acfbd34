/**
 * The record encoding of the notification listener: how one active
 * status-bar notification becomes the text line relayed to the watch,
 * `app,title;text;info;sub;bigtitle;[extra]` followed by a newline, and the
 * "list" batch of such lines framed by empty markers.
 */
module NotificationCodec {
  import opened Wrappers
  import opened JavaText

  /** `maxBigTextLength`: longest long-form body kept before truncation. */
  const MaxBigTextLength: nat := 240
  const Ellipsis := "..."
  /** A record containing this text is this application's own notification. */
  const SelfMarker := "ESP32 Smartwatch Companion App"
  /** Values of the platform's `Notification.CATEGORY_EMAIL` and `CATEGORY_MESSAGE`. */
  const CategoryEmail := "email"
  const CategoryMessage := "msg"

  /**
   * What `getApplicationLabel` returns for an installed package: the label's
   * text, and whether it is a plain `String` (a styled label is some other
   * `CharSequence`, and casting it to `String` throws).
   */
  datatype AppLabel = AppLabel(text: string, isString: bool)

  /** The package manager's installed applications: package name to label. */
  type PackageLabels = map<string, AppLabel>

  /** The context and the package name are present and the package is installed. */
  predicate Installed(context: Option<PackageLabels>, packageName: Option<string>) {
    context.Some? && packageName.Some? && packageName.value in context.value
  }

  /** The `(String)` cast of the installed package's label throws a `ClassCastException`. */
  predicate LabelCastFails(context: Option<PackageLabels>, packageName: Option<string>) {
    Installed(context, packageName) && !context.value[packageName.value].isString
  }

  /**
   * What the encoder reads from one `StatusBarNotification`: its package, the
   * extras it looks up (each may be null), its category, and whether reading
   * the fields (outer `try`) or the category extra (inner `try`) throws.
   */
  datatype Notification = Notification(
    packageName: Option<string>,
    title: Option<string>,
    text: Option<string>,
    infoText: Option<string>,
    subText: Option<string>,
    titleBig: Option<string>,
    category: Option<string>,
    bigText: Option<string>,
    messages: Option<string>,
    fieldsThrow: bool,
    extraThrows: bool)

  /** `ifNotNull`: null reads as the empty string. */
  function IfNotNull(s: Option<string>): (r: string)
    ensures s.None? ==> r == ""
    ensures s.Some? ==> r == s.value
  {
    s.GetOr("")
  }

  /** `shortenString`: at most 240 characters of the input, then "..." if anything was cut. */
  function ShortenString(s: Option<string>): (r: string)
    ensures s.None? ==> r == ""
    ensures s.Some? && |s.value| <= MaxBigTextLength ==> r == s.value
    ensures s.Some? && |s.value| > MaxBigTextLength ==>
      |r| == MaxBigTextLength + |Ellipsis| && r[..MaxBigTextLength] == s.value[..MaxBigTextLength]
      && r[MaxBigTextLength..] == Ellipsis
    ensures |r| <= MaxBigTextLength + |Ellipsis|
  {
    match s
    case None => ""
    case Some(t) => if |t| > MaxBigTextLength then t[..MaxBigTextLength] + Ellipsis else t
  }

  /**
   * `getAppNameFromPkgName`: the label of an installed package; the empty
   * string when the context or the package is null or the package is not
   * installed (the `NameNotFoundException` is caught). None when the label
   * is not a `String`: the cast throws, and nothing here catches that.
   */
  function AppName(context: Option<PackageLabels>, packageName: Option<string>): (r: Option<string>)
    ensures r.None? <==> LabelCastFails(context, packageName)
    ensures Installed(context, packageName) && context.value[packageName.value].isString ==>
      r == Some(context.value[packageName.value].text)
    ensures !Installed(context, packageName) ==> r == Some("")
  {
    if packageName.None? || context.None? then Some("")
    else if packageName.value in context.value then
      var entry := context.value[packageName.value];
      if entry.isString then Some(entry.text) else None
    else Some("")
  }

  /** `.replace("\n", "").replace(";", ",")`: the per-field sanitiser. */
  function Sanitize(s: string): (r: string)
    ensures ';' !in r && '\n' !in r
    ensures |r| <= |s|
    ensures ';' !in s && '\n' !in s ==> r == s
  {
    ReplaceAll(DeleteAll(s, '\n'), ';', ',')
  }

  /** Sanitising works character by character, so it distributes over concatenation. */
  lemma SanitizeConcat(a: string, b: string)
    ensures Sanitize(a + b) == Sanitize(a) + Sanitize(b)
  {
    DeleteAllConcat(a, b, '\n');
    ReplaceAllConcat(DeleteAll(a, '\n'), DeleteAll(b, '\n'), ';', ',');
  }

  /** On one character: ';' becomes ',', a newline is deleted, anything else is kept. */
  lemma SanitizeChar(c: char)
    ensures Sanitize([c]) == if c == ';' then "," else if c == '\n' then "" else [c]
  {
    DeleteAllChar(c, '\n');
  }

  /** A long-form text cut at 240 characters: the sanitised prefix, then the untouched "...". */
  lemma SanitizeShortened(t: string)
    ensures |t| > MaxBigTextLength ==>
      Sanitize(ShortenString(Some(t))) == Sanitize(t[..MaxBigTextLength]) + Ellipsis
  {
    if |t| > MaxBigTextLength {
      SanitizeConcat(t[..MaxBigTextLength], Ellipsis);
    }
  }

  /** One of the five fixed fields: the extra, null as empty, sanitised. */
  function Field(v: Option<string>): (r: string)
    ensures ';' !in r && '\n' !in r
  {
    Sanitize(IfNotNull(v))
  }

  /** The five fixed fields, in record order: title, text, info text, sub text, big title. */
  function Fields(n: Notification): (fs: seq<string>)
    ensures |fs| == 5
    ensures forall i | 0 <= i < |fs| :: ';' !in fs[i] && '\n' !in fs[i]
  {
    [Field(n.title), Field(n.text), Field(n.infoText), Field(n.subText), Field(n.titleBig)]
  }

  /** Each field followed by ';': the `f1;f2;f3;f4;f5;` part of the record. */
  function Terminated(fs: seq<string>): (r: string)
    ensures fs == [] <==> r == ""
  {
    if fs == [] then "" else fs[0] + ";" + Terminated(fs[1..])
  }

  /** The record layout `app,f1;f2;f3;f4;f5;`. */
  function Layout(app: string, fs: seq<string>): (r: string)
    ensures app + "," <= r
  {
    app + "," + Terminated(fs)
  }

  /**
   * The base record as the encoder keeps it: the app label and the five
   * sanitised fields in the fixed layout, then every non-ASCII character of
   * the whole string removed.
   */
  function Base(app: string, n: Notification): (r: string)
    ensures AllAscii(r)
  {
    AsciiFilter(Layout(app, Fields(n)))
  }

  /**
   * The category extra appended after the base record: the shortened,
   * sanitised long-form body of an e-mail, the raw messages extra of a
   * message, nothing otherwise.
   */
  function Extra(n: Notification): (r: string)
    ensures n.category == Some(CategoryEmail) ==>
      ';' !in r && '\n' !in r && |r| <= MaxBigTextLength + |Ellipsis|
    ensures n.category == Some(CategoryEmail) && n.bigText.Some? && |n.bigText.value| <= MaxBigTextLength
      ==> r == Sanitize(n.bigText.value)
    ensures n.category == Some(CategoryEmail) && n.bigText.Some? && |n.bigText.value| > MaxBigTextLength
      ==> r == Sanitize(n.bigText.value[..MaxBigTextLength]) + Ellipsis
    ensures n.category == Some(CategoryEmail) && n.bigText.None? ==> r == ""
    ensures n.category == Some(CategoryMessage) ==> r == IfNotNull(n.messages)
    ensures n.category != Some(CategoryEmail) && n.category != Some(CategoryMessage) ==> r == ""
  {
    if n.category == Some(CategoryEmail) then
      if n.bigText.Some? then
        SanitizeShortened(n.bigText.value);
        Sanitize(ShortenString(n.bigText))
      else ""
    else if n.category == Some(CategoryMessage) then IfNotNull(n.messages)
    else ""
  }

  /**
   * The `data` string built for one notification, or None when the outer
   * `try` throws: the label cast fails (it is read first) or reading the
   * fields throws. A failure in the category step (the inner `catch`) leaves
   * the base record as it was.
   */
  function Record(context: Option<PackageLabels>, n: Notification): (r: Option<string>)
    ensures r.None? <==> n.fieldsThrow || LabelCastFails(context, n.packageName)
  {
    match AppName(context, n.packageName)
    case None => None
    case Some(app) =>
      if n.fieldsThrow then None
      else if n.extraThrows then Some(Base(app, n))
      else Some(Base(app, n) + Extra(n))
  }

  /** The broadcast made for one notification: its record and a newline, unless it is a self-notification. */
  function Event(context: Option<PackageLabels>, n: Notification): (r: Option<string>)
    ensures r.Some? <==> Record(context, n).Some? && !Contains(Record(context, n).value, SelfMarker)
    ensures r.Some? ==> r.value == Record(context, n).value + "\n"
  {
    match Record(context, n)
    case None => None
    case Some(data) => if Contains(data, SelfMarker) then None else Some(data + "\n")
  }

  /** The lines one notification adds to a batch: its event, or nothing. */
  function EventLines(context: Option<PackageLabels>, n: Notification): (r: seq<string>)
    ensures |r| <= 1
  {
    match Event(context, n)
    case None => []
    case Some(e) => [e]
  }

  /** What each notification of the batch gives, in enumeration order: its broadcast or nothing. */
  function Outcomes(context: Option<PackageLabels>, active: seq<Notification>): (r: seq<Option<string>>)
    ensures |r| == |active|
    ensures forall i | 0 <= i < |active| :: r[i] == Event(context, active[i])
  {
    MapSeq(n => Event(context, n), active)
  }

  /** `f` applied to each element, in order. */
  function MapSeq<A, B>(f: A -> B, s: seq<A>): (r: seq<B>)
    ensures |r| == |s|
    ensures forall i | 0 <= i < |s| :: r[i] == f(s[i])
  {
    seq(|s|, i requires 0 <= i < |s| => f(s[i]))
  }

  /** The broadcasts among the outcomes, in order; the skipped ones leave no trace. */
  function Emitted(outcomes: seq<Option<string>>): (r: seq<string>)
    ensures |r| <= |outcomes|
  {
    if outcomes == [] then []
    else (match outcomes[0] case None => [] case Some(e) => [e]) + Emitted(outcomes[1..])
  }

  /** The per-notification broadcasts of a batch, in enumeration order. */
  function Events(context: Option<PackageLabels>, active: seq<Notification>): (r: seq<string>)
    ensures |r| <= |active|
  {
    Emitted(Outcomes(context, active))
  }

  /** How many notifications the loop gets through before a failing label cast: |active| when none fails. */
  function FirstCastFailure(context: Option<PackageLabels>, active: seq<Notification>): (k: nat)
    ensures k <= |active|
    ensures forall i {:trigger LabelCastFails(context, active[i].packageName)} | 0 <= i < k ::
      !LabelCastFails(context, active[i].packageName)
    ensures k < |active| ==> LabelCastFails(context, active[k].packageName)
  {
    if active == [] then 0
    else if LabelCastFails(context, active[0].packageName) then 0
    else 1 + FirstCastFailure(context, active[1..])
  }

  /**
   * All broadcasts of one "list" command, as the code sends them: an empty
   * begin marker, the events, an empty end marker. A notification whose
   * label cast fails ends the batch there: the outer handler reads the label
   * again for its log message, that read throws as well, and the exception
   * leaves `onReceive`, so neither the later notifications nor the end
   * marker are sent.
   */
  function ListBatch(context: Option<PackageLabels>, active: seq<Notification>): (r: seq<string>)
    ensures |r| >= 1 && r[0] == ""
    ensures |r| <= |active| + 2
  {
    var k := FirstCastFailure(context, active);
    if k < |active| then [""] + Events(context, active[..k])
    else [""] + Events(context, active) + [""]
  }

  /**
   * The batch the handlers evidently intend: every notification whose
   * record cannot be built is skipped, and the end marker is always sent.
   */
  function FramedListBatch(context: Option<PackageLabels>, active: seq<Notification>): (r: seq<string>)
    ensures |r| >= 2 && r[0] == "" && r[|r| - 1] == ""
  {
    [""] + Events(context, active) + [""]
  }

  // ---------------------------------------------------------------- lemmas

  /** Sanitising twice is sanitising once. */
  lemma SanitizeIdempotent(s: string)
    ensures Sanitize(Sanitize(s)) == Sanitize(s)
  {
  }

  /** Each field filtered on its own. */
  function FilterEach(fs: seq<string>): (r: seq<string>)
    ensures |r| == |fs|
    ensures forall i | 0 <= i < |fs| :: r[i] == AsciiFilter(fs[i])
  {
    seq(|fs|, i requires 0 <= i < |fs| => AsciiFilter(fs[i]))
  }

  /** Filtering the terminated fields is terminating the filtered fields: the separators stay. */
  lemma {:induction false} TerminatedFilter(fs: seq<string>)
    ensures AsciiFilter(Terminated(fs)) == Terminated(FilterEach(fs))
  {
    if fs != [] {
      TerminatedFilter(fs[1..]);
      assert FilterEach(fs)[1..] == FilterEach(fs[1..]);
      AsciiFilterConcat(fs[0] + ";", Terminated(fs[1..]));
      AsciiFilterConcat(fs[0], ";");
      assert AsciiFilter(";") == ";";
    }
  }

  /**
   * The ASCII filter keeps the layout: filtering the whole record is
   * filtering the label and each field, with the separators where they were.
   */
  lemma LayoutFilter(app: string, fs: seq<string>)
    ensures AsciiFilter(Layout(app, fs)) == Layout(AsciiFilter(app), FilterEach(fs))
  {
    TerminatedFilter(fs);
    AsciiFilterConcat(app + ",", Terminated(fs));
    AsciiFilterConcat(app, ",");
    assert AsciiFilter(",") == ",";
  }

  /** Terminated non-empty fields end with ';'. */
  lemma {:induction false} TerminatedEnds(fs: seq<string>)
    requires fs != []
    ensures |Terminated(fs)| > 0 && Terminated(fs)[|Terminated(fs)| - 1] == ';'
  {
    if fs[1..] != [] {
      TerminatedEnds(fs[1..]);
    }
  }

  /**
   * The base record is the filtered app label and the five filtered fields
   * in the fixed layout; it is ASCII and ends with ';'.
   */
  lemma BaseLayout(app: string, n: Notification)
    ensures Base(app, n) == Layout(AsciiFilter(app), FilterEach(Fields(n)))
    ensures AllAscii(Base(app, n))
    ensures |Base(app, n)| > 0 && Base(app, n)[|Base(app, n)| - 1] == ';'
  {
    BaseIsLayout(app, n);
    LayoutEnds(AsciiFilter(app), FilterEach(Fields(n)));
  }

  /** A layout with at least one field ends with that field's ';'. */
  lemma LayoutEnds(app: string, fs: seq<string>)
    requires fs != []
    ensures |Layout(app, fs)| > 0 && Layout(app, fs)[|Layout(app, fs)| - 1] == ';'
  {
    TerminatedEnds(fs);
  }

  /** The filtered base record is the layout of the filtered label and the filtered fields. */
  lemma BaseIsLayout(app: string, n: Notification)
    ensures Base(app, n) == Layout(AsciiFilter(app), FilterEach(Fields(n)))
  {
    LayoutFilter(app, Fields(n));
  }

  /** Separator-free fields, terminated, then a separator-free tail: splitting gives back the fields and the tail. */
  lemma {:induction false} SplitTerminated(fs: seq<string>, x: string)
    requires forall i | 0 <= i < |fs| :: ';' !in fs[i]
    requires ';' !in x
    ensures Split(Terminated(fs) + x, ';') == fs + [x]
  {
    if fs == [] {
      assert Terminated(fs) + x == x;
      SplitNoSeparator(x, ';');
    } else {
      assert Terminated(fs) + x == fs[0] + [';'] + (Terminated(fs[1..]) + x);
      SplitField(fs[0], ';', Terminated(fs[1..]) + x);
      SplitTerminated(fs[1..], x);
      assert fs == [fs[0]] + fs[1..];
    }
  }

  /**
   * Reading a record back: when the app label holds no ';' and the appended
   * extra holds none either (always so except for an unsanitised message
   * extra), splitting the record at ';' gives back the filtered label joined
   * by ',' to the filtered title, the four further filtered fields and the
   * extra, in their fixed positions.
   */
  lemma RecordFields(context: Option<PackageLabels>, n: Notification)
    requires !n.fieldsThrow && !LabelCastFails(context, n.packageName)
    requires ';' !in AppName(context, n.packageName).value
    requires n.category == Some(CategoryMessage) && !n.extraThrows ==> ';' !in IfNotNull(n.messages)
    ensures Record(context, n).Some?
    ensures var fs := FilterEach(Fields(n));
      Split(Record(context, n).value, ';') ==
        [AsciiFilter(AppName(context, n.packageName).value) + "," + fs[0], fs[1], fs[2], fs[3], fs[4],
         if n.extraThrows then "" else Extra(n)]
  {
    var app := AppName(context, n.packageName).value;
    BaseIsLayout(app, n);
    var fs := FilterEach(Fields(n));
    var x := if n.extraThrows then "" else Extra(n);
    AsciiFilterMembers(app, ';');
    FilterEachKeepsNoSeparator(Fields(n));
    assert Record(context, n).value == Layout(AsciiFilter(app), fs) + x;
    SplitLayout(AsciiFilter(app), fs, x);
  }

  /** Filtering fields adds no ';' to them. */
  lemma FilterEachKeepsNoSeparator(fs: seq<string>)
    requires forall i | 0 <= i < |fs| :: ';' !in fs[i]
    ensures forall i | 0 <= i < |fs| :: ';' !in FilterEach(fs)[i]
  {
    forall i | 0 <= i < |fs| ensures ';' !in FilterEach(fs)[i] {
      AsciiFilterMembers(fs[i], ';');
    }
  }

  /** A layout with separator-free label, fields and tail splits into label-and-first-field, the other fields, the tail. */
  lemma SplitLayout(app: string, fs: seq<string>, x: string)
    requires |fs| == 5
    requires ';' !in app && ';' !in x
    requires forall i | 0 <= i < |fs| :: ';' !in fs[i]
    ensures Split(Layout(app, fs) + x, ';') == [app + "," + fs[0], fs[1], fs[2], fs[3], fs[4], x]
  {
    assert Layout(app, fs) + x == (app + "," + fs[0]) + [';'] + (Terminated(fs[1..]) + x);
    SplitField(app + "," + fs[0], ';', Terminated(fs[1..]) + x);
    SplitTerminated(fs[1..], x);
    assert [app + "," + fs[0]] + (fs[1..] + [x]) == [app + "," + fs[0], fs[1], fs[2], fs[3], fs[4], x];
  }

  /**
   * A label holding ';' shifts every positional field: the record splits into
   * seven parts instead of six, and what reads as the title is the label's
   * remainder joined to it.
   */
  lemma SeparatorInLabelShiftsFields(a: string, b: string, fs: seq<string>, x: string)
    requires ';' !in a && ';' !in b && ';' !in x
    requires |fs| == 5 && forall i | 0 <= i < |fs| :: ';' !in fs[i]
    ensures Split(Layout(a + ";" + b, fs) + x, ';') == [a, b + "," + fs[0], fs[1], fs[2], fs[3], fs[4], x]
  {
    assert Layout(a + ";" + b, fs) + x == a + [';'] + (Layout(b, fs) + x);
    SplitField(a, ';', Layout(b, fs) + x);
    SplitLayout(b, fs, x);
  }

  /** A notification whose app label contains the self-marker is never broadcast. */
  lemma SelfNotificationSuppressed(context: Option<PackageLabels>, n: Notification)
    requires AppName(context, n.packageName).Some?
    requires Contains(AppName(context, n.packageName).value, SelfMarker)
    ensures Event(context, n) == None
  {
    var app := AppName(context, n.packageName).value;
    if !n.fieldsThrow {
      SelfMarkerInBase(app, n);
      ContainsInConcat(Base(app, n), Extra(n), SelfMarker);
    }
  }

  /** The self-marker in the app label survives into the filtered base record. */
  lemma SelfMarkerInBase(app: string, n: Notification)
    requires Contains(app, SelfMarker)
    ensures Contains(Base(app, n), SelfMarker)
  {
    BaseIsLayout(app, n);
    SelfMarkerAscii();
    AsciiFilterKeepsOccurrence(app, SelfMarker);
    ContainsInLayout(AsciiFilter(app), FilterEach(Fields(n)), SelfMarker);
  }

  /** The self-marker is plain ASCII, so the filter cannot break it up. */
  lemma SelfMarkerAscii()
    ensures AllAscii(SelfMarker)
  {
  }

  /** An occurrence in the label is an occurrence in the laid-out record. */
  lemma ContainsInLayout(app: string, fs: seq<string>, m: string)
    requires Contains(app, m)
    ensures Contains(Layout(app, fs), m)
  {
    ContainsInConcat(app, ",", m);
    ContainsInConcat(app + ",", Terminated(fs), m);
  }

  /** Every broadcast record is non-empty, newline-terminated and free of the self-marker. */
  lemma EventShape(context: Option<PackageLabels>, n: Notification)
    requires Event(context, n).Some?
    ensures IsRecordLine(Event(context, n).value)
  {
    ContainsAppendChar(Record(context, n).value, '\n', SelfMarker);
  }

  /** Emission distributes over concatenation of the outcomes. */
  lemma {:induction false} EmittedConcat(a: seq<Option<string>>, b: seq<Option<string>>)
    ensures Emitted(a + b) == Emitted(a) + Emitted(b)
  {
    if a == [] {
      assert a + b == b;
    } else {
      assert (a + b)[1..] == a[1..] + b;
      EmittedConcat(a[1..], b);
    }
  }

  /** Mapping distributes over concatenation. */
  lemma MapSeqConcat<A, B>(f: A -> B, a: seq<A>, b: seq<A>)
    ensures MapSeq(f, a + b) == MapSeq(f, a) + MapSeq(f, b)
  {
    assert forall i | 0 <= i < |a| :: (a + b)[i] == a[i];
    assert forall i | |a| <= i < |a| + |b| :: (a + b)[i] == b[i - |a|];
  }

  /** The events of a batch are the events of its parts, in order. */
  lemma EventsConcat(context: Option<PackageLabels>, a: seq<Notification>, b: seq<Notification>)
    ensures Events(context, a + b) == Events(context, a) + Events(context, b)
  {
    MapSeqConcat(n => Event(context, n), a, b);
    EmittedConcat(Outcomes(context, a), Outcomes(context, b));
  }

  /**
   * One more notification adds its broadcast, if it has one, after the
   * broadcasts of those before it.
   */
  lemma EventsAppend(context: Option<PackageLabels>, a: seq<Notification>, n: Notification)
    ensures Event(context, n).None? ==> Events(context, a + [n]) == Events(context, a)
    ensures Event(context, n).Some? ==> Events(context, a + [n]) == Events(context, a) + [Event(context, n).value]
  {
    MapEmittedAppend(m => Event(context, m), a, n);
  }

  /** Emitting the mapped sequence with one more element adds that element's broadcast, if any. */
  lemma MapEmittedAppend<A>(f: A -> Option<string>, a: seq<A>, n: A)
    ensures f(n).None? ==> Emitted(MapSeq(f, a + [n])) == Emitted(MapSeq(f, a))
    ensures f(n).Some? ==> Emitted(MapSeq(f, a + [n])) == Emitted(MapSeq(f, a)) + [f(n).value]
  {
    MapSeqConcat(f, a, [n]);
    var o := MapSeq(f, [n]);
    assert o == [f(n)];
    EmittedConcat(MapSeq(f, a), o);
    assert o[1..] == [];
  }

  /**
   * A notification whose fields cannot be read (a null `extras`, say) is
   * skipped; the rest of the batch is unaffected.
   */
  lemma FailedNotificationSkipped(context: Option<PackageLabels>, a: seq<Notification>, n: Notification, b: seq<Notification>)
    requires n.fieldsThrow
    ensures Events(context, a + [n] + b) == Events(context, a) + Events(context, b)
  {
    var f := m => Event(context, m);
    MapSeqConcat(f, a + [n], b);
    MapSeqConcat(f, a, [n]);
    assert Outcomes(context, [n]) == [None];
    EmittedSkipsNone(Outcomes(context, a), Outcomes(context, b));
  }

  /** A skipped notification between two stretches leaves only their lines. */
  lemma EmittedSkipsNone(x: seq<Option<string>>, y: seq<Option<string>>)
    ensures Emitted(x + [None] + y) == Emitted(x) + Emitted(y)
  {
    var skipped: seq<Option<string>> := [None];
    assert skipped[1..] == [];
    assert Emitted(skipped) == [];
    EmittedConcat(x, skipped);
    EmittedConcat(x + skipped, y);
  }

  /** A broadcast line: non-empty, newline-terminated, free of the self-marker. */
  predicate IsRecordLine(e: string) {
    |e| > 0 && e[|e| - 1] == '\n' && !Contains(e, SelfMarker)
  }

  /** Emission passes on exactly what the outcomes hold: every line is some outcome's, every present outcome is a line. */
  lemma {:induction false} EmittedFrom(outcomes: seq<Option<string>>)
    ensures forall e | e in Emitted(outcomes) :: exists i | 0 <= i < |outcomes| :: outcomes[i] == Some(e)
    ensures forall i | 0 <= i < |outcomes| && outcomes[i].Some? :: outcomes[i].value in Emitted(outcomes)
  {
    if outcomes != [] {
      var tail := outcomes[1..];
      EmittedFrom(tail);
      var head: seq<string> := match outcomes[0] case None => [] case Some(e) => [e];
      assert Emitted(outcomes) == head + Emitted(tail);
      forall e | e in Emitted(outcomes) ensures exists i | 0 <= i < |outcomes| :: outcomes[i] == Some(e) {
        if e in Emitted(tail) {
          var i :| 0 <= i < |tail| && tail[i] == Some(e);
          assert outcomes[i + 1] == Some(e);
        } else {
          assert outcomes[0] == Some(e);
        }
      }
      forall i | 0 <= i < |outcomes| && outcomes[i].Some? ensures outcomes[i].value in Emitted(outcomes) {
        if i > 0 {
          assert tail[i - 1] == outcomes[i];
        }
      }
    }
  }

  /** Every event of a batch is a record line. */
  lemma EventsShape(context: Option<PackageLabels>, active: seq<Notification>)
    ensures forall e | e in Events(context, active) :: IsRecordLine(e)
  {
    var outcomes := Outcomes(context, active);
    EmittedFrom(outcomes);
    forall e | e in Events(context, active) ensures IsRecordLine(e) {
      var i :| 0 <= i < |outcomes| && outcomes[i] == Some(e);
      EventShape(context, active[i]);
    }
  }

  /**
   * The intended "list" batch is framed: an empty marker first and last, and
   * in between only non-empty newline-terminated records that are not
   * self-notifications, so the markers are recognisable.
   */
  lemma BatchFraming(context: Option<PackageLabels>, active: seq<Notification>)
    ensures var b := FramedListBatch(context, active);
      |b| == |Events(context, active)| + 2 && |b| <= |active| + 2 && b[0] == "" && b[|b| - 1] == ""
      && forall i | 0 < i < |b| - 1 :: IsRecordLine(b[i])
  {
    EventsShape(context, active);
    var b := FramedListBatch(context, active);
    forall i | 0 < i < |b| - 1 ensures IsRecordLine(b[i]) {
      assert b[i] == Events(context, active)[i - 1];
    }
  }

  /**
   * The scenario of two active notifications, the first of them this
   * application's own: the batch is the two markers around the other's record.
   */
  lemma ListWithSelfNotification(context: Option<PackageLabels>, own: Notification, other: Notification)
    requires AppName(context, own.packageName).Some?
    requires Contains(AppName(context, own.packageName).value, SelfMarker)
    requires Event(context, other).Some?
    ensures ListBatch(context, [own, other]) == ["", Event(context, other).value, ""]
  {
    assert FirstCastFailure(context, [own, other]) == 2;
    SelfNotificationSuppressed(context, own);
    assert Events(context, []) == [];
    EventsAppend(context, [], own);
    assert [] + [own] == [own];
    EventsAppend(context, [own], other);
    assert [own] + [other] == [own, other];
  }

  /**
   * The batch as sent is the intended batch cut short: it is a prefix of it,
   * and the whole of it exactly when no label cast fails. When one fails,
   * the end marker and everything from that notification on are missing.
   */
  lemma {:induction false} ListBatchTruncates(context: Option<PackageLabels>, active: seq<Notification>)
    ensures ListBatch(context, active) <= FramedListBatch(context, active)
    ensures ListBatch(context, active) == FramedListBatch(context, active) <==>
      forall i | 0 <= i < |active| :: !LabelCastFails(context, active[i].packageName)
  {
    var k := FirstCastFailure(context, active);
    if k < |active| {
      assert active == active[..k] + active[k..];
      EventsConcat(context, active[..k], active[k..]);
      var pre, post := Events(context, active[..k]), Events(context, active[k..]);
      assert FramedListBatch(context, active) == ([""] + pre) + (post + [""]);
    }
  }

  /**
   * The scenario that shows the difference: the first of two notifications
   * has a styled label. As sent, the batch is the begin marker alone; as
   * intended, the first is skipped and the batch is that of the second.
   */
  lemma StyledLabelEndsBatch(context: Option<PackageLabels>, n1: Notification, n2: Notification)
    requires LabelCastFails(context, n1.packageName)
    ensures ListBatch(context, [n1, n2]) == [""]
    ensures FramedListBatch(context, [n1, n2]) == FramedListBatch(context, [n2])
  {
    assert FirstCastFailure(context, [n1, n2]) == 0;
    assert [n1, n2][..0] == [];
    assert Events(context, []) == [];
    EventsConcat(context, [n1], [n2]);
    assert [n1] + [n2] == [n1, n2];
    EventsAppend(context, [], n1);
    assert [] + [n1] == [n1];
  }
}
