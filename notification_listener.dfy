/**
 * The notification listener's command receiver: "clearall" dismisses every
 * notification, "list" relays the active notifications as a framed batch
 * of `notification_event` broadcasts. Every `sendBroadcast` appends the
 * event text it carries to `sent`; a `cancelAllNotifications` call is
 * counted in `dismissAllRequests`.
 */
module NotificationListener {
  import opened Wrappers
  import opened JavaText
  import opened NotificationCodec

  const ClearAllCommand := "clearall"
  const ListCommand := "list"

  /**
   * The body of the outer `try` for one notification: the base record,
   * filtered to ASCII, then grown by the category extra unless that step
   * throws; None when the label cast or reading the fields throws.
   */
  method BuildRecord(context: Option<PackageLabels>, sbn: Notification) returns (data: Option<string>)
    ensures data == Record(context, sbn)
  {
    var app := AppName(context, sbn.packageName);
    if app.None? {
      return None;
    }
    if sbn.fieldsThrow {
      return None;
    }
    var text := Layout(app.value, Fields(sbn));
    text := AsciiFilter(text);
    ghost var base := text;
    assert base == Base(app.value, sbn);
    if !sbn.extraThrows {
      if sbn.category == Some(CategoryEmail) {
        if sbn.bigText.Some? {
          text := text + Sanitize(ShortenString(sbn.bigText));
        }
      } else if sbn.category == Some(CategoryMessage) {
        text := text + IfNotNull(sbn.messages);
      }
      if text == base {
        assert base + Extra(sbn) == base;
      }
    }
    return Some(text);
  }

  /** The loop stops at the first notification whose label cast fails: the batch as sent ends there. */
  lemma AbortedBatch(context: Option<PackageLabels>, active: seq<Notification>, i: nat)
    requires i < |active| && LabelCastFails(context, active[i].packageName)
    requires i <= FirstCastFailure(context, active)
    ensures FirstCastFailure(context, active) == i
    ensures ListBatch(context, active) == [""] + Events(context, active[..i])
  {
    assert FirstCastFailure(context, active) == i;
  }

  /** The two shapes of the batch as sent: cut short at the first failing label cast, or whole. */
  lemma ListBatchCases(context: Option<PackageLabels>, active: seq<Notification>, before: seq<string>)
    ensures var k := FirstCastFailure(context, active);
      (k < |active| ==> before + ListBatch(context, active) == before + [""] + Events(context, active[..k]))
      && (k == |active| ==> before + ListBatch(context, active) == before + [""] + Events(context, active) + [""])
  {
    var k := FirstCastFailure(context, active);
    if k < |active| {
      var events := Events(context, active[..k]);
      assert ListBatch(context, active) == [""] + events;
      AppendAssociative(before, [""], events);
    } else {
      var events := Events(context, active);
      assert ListBatch(context, active) == [""] + events + [""];
      AppendAssociative(before, [""] + events, [""]);
      AppendAssociative(before, [""], events);
    }
  }

  lemma AppendAssociative<T>(a: seq<T>, b: seq<T>, c: seq<T>)
    ensures a + (b + c) == a + b + c
  {
  }

  /** A notification whose label casts lets the loop go on to the next one. */
  lemma PastCastCheck(context: Option<PackageLabels>, active: seq<Notification>, i: nat)
    requires i < |active| && !LabelCastFails(context, active[i].packageName)
    requires i <= FirstCastFailure(context, active)
    ensures i + 1 <= FirstCastFailure(context, active)
  {
  }

  /** One more pass of the loop appends the notification's event, if it has one. */
  lemma EventsPrefixStep(context: Option<PackageLabels>, active: seq<Notification>, i: nat)
    requires i < |active|
    ensures Events(context, active[..i + 1]) == Events(context, active[..i])
      + EventLines(context, active[i])
  {
    assert active[..i + 1] == active[..i] + [active[i]];
    EventsAppend(context, active[..i], active[i]);
  }

  /** The loop runs to the end when no label cast fails: the batch as sent is the whole framed one. */
  lemma CompletedBatch(context: Option<PackageLabels>, active: seq<Notification>)
    requires FirstCastFailure(context, active) == |active|
    ensures ListBatch(context, active) == [""] + Events(context, active) + [""]
  {
  }

  class Listener {
    /** The `notification_event` extras broadcast so far, oldest first. */
    var sent: seq<string>
    /** How many times all notifications were asked to be dismissed. */
    var dismissAllRequests: nat

    constructor ()
      ensures sent == [] && dismissAllRequests == 0
    {
      sent := [];
      dismissAllRequests := 0;
    }

    /**
     * `NLServiceReceiver.onReceive`: `command` is the intent's "command"
     * extra (possibly null), `active` what `getActiveNotifications()`
     * returns, `context` the package manager the labels are looked up in.
     * `aborted`: an exception left the method (a failing label cast).
     */
    method OnReceive(context: Option<PackageLabels>, command: Option<string>, active: seq<Notification>)
      returns (aborted: bool)
      modifies this
      ensures command == Some(ClearAllCommand) ==>
        dismissAllRequests == old(dismissAllRequests) + 1 && sent == old(sent) && !aborted
      ensures command == Some(ListCommand) ==>
        sent == old(sent) + ListBatch(context, active) && dismissAllRequests == old(dismissAllRequests)
        && (aborted <==> FirstCastFailure(context, active) < |active|)
      ensures command != Some(ClearAllCommand) && command != Some(ListCommand) ==>
        sent == old(sent) && dismissAllRequests == old(dismissAllRequests) && !aborted
    {
      aborted := false;
      if command == Some(ClearAllCommand) {
        dismissAllRequests := dismissAllRequests + 1;
      } else if command == Some(ListCommand) {
        ghost var before := sent;
        aborted := ListActive(context, active);
        ListBatchCases(context, active, before);
      }
    }

    /**
     * One pass of the loop, the outer `try` and its `catch`: the
     * notification's event is broadcast if it has one. `thrown`: the record
     * could not be built, the handler's log message read the label again,
     * and that read threw out of the handler.
     */
    method Relay(context: Option<PackageLabels>, sbn: Notification) returns (thrown: bool)
      modifies this
      ensures thrown <==> LabelCastFails(context, sbn.packageName)
      ensures sent == old(sent) + if thrown then [] else EventLines(context, sbn)
      ensures dismissAllRequests == old(dismissAllRequests)
    {
      var data := BuildRecord(context, sbn);
      if data.None? {
        var name := AppName(context, sbn.packageName);
        return name.None?;
      }
      if !Contains(data.value, SelfMarker) {
        sent := sent + [data.value + "\n"];
      }
      return false;
    }

    /**
     * The "list" branch: begin marker, one event per surviving notification,
     * end marker. A failing label cast ends it early: the handler's log
     * message reads the label again, which throws out of the loop.
     */
    method ListActive(context: Option<PackageLabels>, active: seq<Notification>) returns (aborted: bool)
      modifies this
      ensures aborted <==> FirstCastFailure(context, active) < |active|
      ensures aborted ==> sent == old(sent) + [""] + Events(context, active[..FirstCastFailure(context, active)])
      ensures !aborted ==> sent == old(sent) + [""] + Events(context, active) + [""]
      ensures dismissAllRequests == old(dismissAllRequests)
    {
      sent := sent + [""];
      var i := 0;
      while i < |active|
        invariant 0 <= i <= |active|
        invariant i <= FirstCastFailure(context, active)
        invariant sent == old(sent) + [""] + Events(context, active[..i])
        invariant dismissAllRequests == old(dismissAllRequests)
      {
        var sbn := active[i];
        var thrown := Relay(context, sbn);
        if thrown {
          AbortedBatch(context, active, i);
          return true;
        }
        PastCastCheck(context, active, i);
        EventsPrefixStep(context, active, i);
        AppendAssociative(old(sent) + [""], Events(context, active[..i]), EventLines(context, sbn));
        i := i + 1;
      }
      assert active[..|active|] == active;
      CompletedBatch(context, active);
      sent := sent + [""];
      return false;
    }
  }
}
