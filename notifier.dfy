/** The notifier: a notification request is dispatched channel by channel, in
    order, to the email and SMS handlers; the first handler error ends it.
    Template lookup, template compilation, the decoding of a channel's data,
    and the mailer's and SMS provider's replies are inputs (`Providers`);
    what was handed to the mailer and the SMS provider is the notifier's
    outbox. */
module Notifier {
  import opened Common
  import opened Events
  import opened NotificationRepository

  /** `notification.EmailData`; only the recipients, which the mailer uses, are modelled. */
  datatype EmailData = EmailData(to: seq<string>)

  /** `notification.SMSData`. */
  datatype SMSData = SMSData(to: seq<string>)

  /** One call of `mailer.Send` or `smsProvider.Send`. */
  datatype Delivery =
    | Email(email: EmailData, subject: string, body: string, alternative: Option<string>)
    | Sms(sms: SMSData, subject: string, body: string)

  datatype Providers = Providers(
    findTemplate: FindTemplateParams -> Result<Template, string>,
    compile: (string, Json) -> Result<string, string>,
    decodeEmail: Json -> Result<EmailData, string>,
    decodeSms: Json -> Result<SMSData, string>,
    sendError: Delivery -> Option<string>)

  /** What one handler did: the send it made, if any, and what it returned. */
  datatype Handled = Handled(sent: Option<Delivery>, err: Option<string>)

  const Locale: string := "en"
  const Scope: string := "default"
  const HtmlMime: string := "text/html"
  const TextMime: string := "text/plain"

  /** Every lookup the handlers make: English, default scope. */
  function TemplateQuery(event: string, channel: string, mimetype: string): (q: FindTemplateParams)
    ensures q.locale == "en" && q.scope == "default"
    ensures q.event == event && q.channel == channel && q.mimetype == mimetype
  {
    FindTemplateParams(event, channel, Locale, Scope, mimetype)
  }

  /** The zero `dao.Template` a failed lookup yields. */
  const NoTemplate: Template := Template("", 0, "", "", "", "", "", "", "")

  /** The template a lookup leaves in its result variable: the one found, or
      the zero template when the lookup failed. */
  function TemplateOrZero(found: Result<Template, string>): (t: Template)
    ensures found.Ok? ==> t == found.value
    ensures found.Err? ==> t == NoTemplate && t.body == ""
  {
    if found.Ok? then found.value else NoTemplate
  }

  /** `handleEmailNotification` as a function of its inputs. */
  function EmailOutcome(event: string, msg: NotificationChannelPayload, tokens: Json, pr: Providers): (h: Handled)
    ensures msg.data == JNull ==> h == Handled(None, None)
    ensures msg.data != JNull && h.sent.None? ==> h.err.Some?
    ensures msg.data != JNull ==>
              var decoded := pr.decodeEmail(msg.data);
              var html := pr.findTemplate(TemplateQuery(event, msg.channel, HtmlMime));
              var text := TemplateOrZero(pr.findTemplate(TemplateQuery(event, msg.channel, TextMime)));
              && (decoded.Err? ==> h == Handled(None, Some(decoded.error)))
              && (decoded.Ok? && html.Err? ==> h == Handled(None, Some(html.error)))
              && (decoded.Ok? && html.Ok? ==>
                    var body := pr.compile(html.value.body, tokens);
                    var subject := pr.compile(html.value.subject, tokens);
                    && (body.Err? ==> h == Handled(None, Some(body.error)))
                    && (body.Ok? && subject.Err? ==> h == Handled(None, Some(subject.error)))
                    && (body.Ok? && subject.Ok? && text.body != "" && pr.compile(text.body, tokens).Err? ==>
                          h == Handled(None, Some(pr.compile(text.body, tokens).error)))
                    && (body.Ok? && subject.Ok? && (text.body == "" || pr.compile(text.body, tokens).Ok?) ==>
                          h.sent.Some?))
    ensures h.sent.Some? ==>
              var html := pr.findTemplate(TemplateQuery(event, msg.channel, HtmlMime));
              var text := pr.findTemplate(TemplateQuery(event, msg.channel, TextMime));
              && html.Ok? && h.sent.value.Email?
              && msg.data != JNull && pr.decodeEmail(msg.data) == Ok(h.sent.value.email)
              && pr.compile(html.value.body, tokens) == Ok(h.sent.value.body)
              && pr.compile(html.value.subject, tokens) == Ok(h.sent.value.subject)
              && (h.sent.value.alternative.Some? <==> text.Ok? && text.value.body != "")
              && (h.sent.value.alternative.Some? ==> pr.compile(text.value.body, tokens) == Ok(h.sent.value.alternative.value))
              && h.err == pr.sendError(h.sent.value)
  {
    if msg.data == JNull then Handled(None, None)
    else
      match pr.decodeEmail(msg.data)
      case Err(e) => Handled(None, Some(e))
      case Ok(emailData) =>
        match pr.findTemplate(TemplateQuery(event, msg.channel, HtmlMime))
        case Err(e) => Handled(None, Some(e))
        case Ok(htmlTemplate) =>
          var textTemplate := TemplateOrZero(pr.findTemplate(TemplateQuery(event, msg.channel, TextMime)));
          match pr.compile(htmlTemplate.body, tokens)
          case Err(e) => Handled(None, Some(e))
          case Ok(body) =>
            match pr.compile(htmlTemplate.subject, tokens)
            case Err(e) => Handled(None, Some(e))
            case Ok(subject) =>
              if textTemplate.body != "" && pr.compile(textTemplate.body, tokens).Err? then
                Handled(None, Some(pr.compile(textTemplate.body, tokens).error))
              else
                var textBody := if textTemplate.body != "" then Some(pr.compile(textTemplate.body, tokens).value) else None;
                var d := Email(emailData, subject, body, textBody);
                Handled(Some(d), pr.sendError(d))
  }

  /** `handleSMSSNotification` as a function of its inputs. */
  function SmsOutcome(event: string, msg: NotificationChannelPayload, tokens: Json, pr: Providers): (h: Handled)
    ensures msg.data == JNull ==> h == Handled(None, None)
    ensures msg.data != JNull && h.sent.None? ==> h.err.Some?
    ensures msg.data != JNull ==>
              var decoded := pr.decodeSms(msg.data);
              var text := pr.findTemplate(TemplateQuery(event, msg.channel, TextMime));
              && (decoded.Err? ==> h == Handled(None, Some(decoded.error)))
              && (decoded.Ok? && text.Err? ==> h == Handled(None, Some(text.error)))
              && (decoded.Ok? && text.Ok? ==>
                    var body := pr.compile(text.value.body, tokens);
                    var subject := pr.compile(text.value.subject, tokens);
                    && (body.Err? ==> h == Handled(None, Some(body.error)))
                    && (body.Ok? && subject.Err? ==> h == Handled(None, Some(subject.error)))
                    && (body.Ok? && subject.Ok? ==> h.sent.Some?))
    ensures h.sent.Some? ==>
              var text := pr.findTemplate(TemplateQuery(event, msg.channel, TextMime));
              && text.Ok? && h.sent.value.Sms?
              && msg.data != JNull && pr.decodeSms(msg.data) == Ok(h.sent.value.sms)
              && pr.compile(text.value.body, tokens) == Ok(h.sent.value.body)
              && pr.compile(text.value.subject, tokens) == Ok(h.sent.value.subject)
              && h.err == pr.sendError(h.sent.value)
  {
    if msg.data == JNull then Handled(None, None)
    else
      match pr.decodeSms(msg.data)
      case Err(e) => Handled(None, Some(e))
      case Ok(smsData) =>
        match pr.findTemplate(TemplateQuery(event, msg.channel, TextMime))
        case Err(e) => Handled(None, Some(e))
        case Ok(smsTemplate) =>
          match pr.compile(smsTemplate.body, tokens)
          case Err(e) => Handled(None, Some(e))
          case Ok(body) =>
            match pr.compile(smsTemplate.subject, tokens)
            case Err(e) => Handled(None, Some(e))
            case Ok(subject) =>
              var d := Sms(smsData, subject, body);
              Handled(Some(d), pr.sendError(d))
  }

  /** The handler a channel is routed to; other channels are passed over. */
  function Route(event: string, msg: NotificationChannelPayload, tokens: Json, pr: Providers): Handled {
    if msg.channel == EmailChannel then EmailOutcome(event, msg, tokens, pr)
    else if msg.channel == SmsChannel then SmsOutcome(event, msg, tokens, pr)
    else Handled(None, None)
  }

  /** The outcome of each channel of a request, in order. */
  function Outcomes(event: string, msgs: seq<NotificationChannelPayload>, tokens: Json, pr: Providers): (hs: seq<Handled>)
    ensures |hs| == |msgs|
    ensures forall i :: 0 <= i < |msgs| ==> hs[i] == Route(event, msgs[i], tokens, pr)
  {
    seq(|msgs|, i requires 0 <= i < |msgs| => Route(event, msgs[i], tokens, pr))
  }

  function SentBy(h: Handled): seq<Delivery> {
    if h.sent.Some? then [h.sent.value] else []
  }

  /** What a run of handlers did: every send, in order, and the error returned. */
  datatype Dispatched = Dispatched(sent: seq<Delivery>, err: Option<string>)

  /** Handler outcomes taken in order until one is an error. */
  function Run(hs: seq<Handled>): Dispatched {
    if hs == [] then Dispatched([], None)
    else
      var before := Run(hs[..|hs| - 1]);
      if before.err.Some? then before
      else Dispatched(before.sent + SentBy(hs[|hs| - 1]), hs[|hs| - 1].err)
  }

  /** The sends and the returned error of `Notify` over channels `msgs`. */
  function Dispatch(event: string, msgs: seq<NotificationChannelPayload>, tokens: Json, pr: Providers): Dispatched {
    Run(Outcomes(event, msgs, tokens, pr))
  }

  class Notifier {
    /** Every send made, in order. */
    var outbox: seq<Delivery>

    constructor ()
      ensures outbox == []
    {
      outbox := [];
    }

    method HandleEmailNotification(event: string, data: NotificationChannelPayload, tokens: Json, pr: Providers)
      returns (err: Option<string>)
      modifies this
      ensures outbox == old(outbox) + SentBy(EmailOutcome(event, data, tokens, pr))
      ensures err == EmailOutcome(event, data, tokens, pr).err
    {
      if data.data == JNull {
        return None;
      }
      var emailData := pr.decodeEmail(data.data);
      if emailData.Err? {
        return Some(emailData.error);
      }
      var htmlTemplate := pr.findTemplate(TemplateQuery(event, data.channel, HtmlMime));
      if htmlTemplate.Err? {
        return Some(htmlTemplate.error);
      }
      var textTemplate := TemplateOrZero(pr.findTemplate(TemplateQuery(event, data.channel, TextMime)));
      var body := pr.compile(htmlTemplate.value.body, tokens);
      if body.Err? {
        return Some(body.error);
      }
      var subject := pr.compile(htmlTemplate.value.subject, tokens);
      if subject.Err? {
        return Some(subject.error);
      }
      var textBody: Option<string> := None;
      if textTemplate.body != "" {
        var tb := pr.compile(textTemplate.body, tokens);
        if tb.Err? {
          return Some(tb.error);
        }
        textBody := Some(tb.value);
      }
      var d := Email(emailData.value, subject.value, body.value, textBody);
      outbox := outbox + [d];
      return pr.sendError(d);
    }

    method HandleSmsNotification(event: string, data: NotificationChannelPayload, tokens: Json, pr: Providers)
      returns (err: Option<string>)
      modifies this
      ensures outbox == old(outbox) + SentBy(SmsOutcome(event, data, tokens, pr))
      ensures err == SmsOutcome(event, data, tokens, pr).err
    {
      if data.data == JNull {
        return None;
      }
      var smsData := pr.decodeSms(data.data);
      if smsData.Err? {
        return Some(smsData.error);
      }
      var smsTemplate := pr.findTemplate(TemplateQuery(event, data.channel, TextMime));
      if smsTemplate.Err? {
        return Some(smsTemplate.error);
      }
      var body := pr.compile(smsTemplate.value.body, tokens);
      if body.Err? {
        return Some(body.error);
      }
      var subject := pr.compile(smsTemplate.value.subject, tokens);
      if subject.Err? {
        return Some(subject.error);
      }
      var d := Sms(smsData.value, subject.value, body.value);
      outbox := outbox + [d];
      return pr.sendError(d);
    }

    /** The `switch` on the channel. */
    method HandleChannel(event: string, msg: NotificationChannelPayload, tokens: Json, pr: Providers)
      returns (err: Option<string>)
      modifies this
      ensures outbox == old(outbox) + SentBy(Route(event, msg, tokens, pr))
      ensures err == Route(event, msg, tokens, pr).err
    {
      if msg.channel == EmailChannel {
        err := HandleEmailNotification(event, msg, tokens, pr);
      } else if msg.channel == SmsChannel {
        err := HandleSmsNotification(event, msg, tokens, pr);
      } else {
        err := None;
      }
    }

    /** `Notify`: the request's channels in order; the first error is returned
        and the channels after it are not processed. */
    method Notify(payload: EventPayload<ManageNotificationEventPayload>, pr: Providers) returns (err: Option<string>)
      modifies this
      ensures var run := Dispatch(payload.data.event, payload.data.payload, payload.data.tokens, pr);
              outbox == old(outbox) + run.sent && err == run.err
    {
      var msgs := payload.data.payload;
      ghost var hs := Outcomes(payload.data.event, msgs, payload.data.tokens, pr);
      var i := 0;
      while i < |msgs|
        invariant 0 <= i <= |msgs|
        invariant Run(hs[..i]).err.None?
        invariant outbox == old(outbox) + Run(hs[..i]).sent
      {
        assert hs[..i + 1][..i] == hs[..i];
        err := HandleChannel(payload.data.event, msgs[i], payload.data.tokens, pr);
        if err.Some? {
          RunStops(hs, i + 1);
          return err;
        }
        i := i + 1;
      }
      assert hs[..i] == hs;
      return None;
    }
  }

  // ----- Properties of the dispatch -----

  /** Once a handler has failed, later outcomes change nothing. */
  lemma {:induction false} RunStops(hs: seq<Handled>, n: nat)
    requires n <= |hs| && Run(hs[..n]).err.Some?
    ensures Run(hs) == Run(hs[..n])
  {
    if n < |hs| {
      var init := hs[..|hs| - 1];
      assert init[..n] == hs[..n];
      RunStops(init, n);
    } else {
      assert hs[..n] == hs;
    }
  }

  /** The sends of a run of outcomes, one after another. */
  function AllSent(hs: seq<Handled>): seq<Delivery> {
    if hs == [] then [] else AllSent(hs[..|hs| - 1]) + SentBy(hs[|hs| - 1])
  }

  /** A run succeeds exactly when every handler succeeds, and then every
      handler's send was made, in order. */
  lemma {:induction false} RunSucceedsIff(hs: seq<Handled>)
    ensures Run(hs).err.None? <==> forall i :: 0 <= i < |hs| ==> hs[i].err.None?
    ensures Run(hs).err.None? ==> Run(hs).sent == AllSent(hs)
  {
    if hs != [] {
      var init := hs[..|hs| - 1];
      RunSucceedsIff(init);
      assert forall i :: 0 <= i < |init| ==> init[i] == hs[i];
    }
  }

  /** The returned error is the first failing handler's: every handler before
      it succeeded, and the sends are those of the handlers up to it. */
  lemma {:induction false} FirstErrorWins(hs: seq<Handled>)
    requires Run(hs).err.Some?
    ensures exists k :: 0 <= k < |hs| && hs[k].err == Run(hs).err
              && (forall i :: 0 <= i < k ==> hs[i].err.None?)
              && Run(hs).sent == AllSent(hs[..k + 1])
  {
    var init := hs[..|hs| - 1];
    if Run(init).err.Some? {
      FirstErrorWins(init);
      var k :| 0 <= k < |init| && init[k].err == Run(init).err
               && (forall i :: 0 <= i < k ==> init[i].err.None?)
               && Run(init).sent == AllSent(init[..k + 1]);
      assert init[..k + 1] == hs[..k + 1];
      assert forall i :: 0 <= i < k ==> init[i] == hs[i];
    } else {
      RunSucceedsIff(init);
      var k := |hs| - 1;
      assert hs[..k + 1] == hs;
      assert hs[..k + 1][..k] == init;
      assert forall i :: 0 <= i < k ==> init[i] == hs[i];
    }
  }

  /** A request with no email or SMS channel sends nothing and succeeds. */
  lemma OtherChannelsIgnored(event: string, msgs: seq<NotificationChannelPayload>, tokens: Json, pr: Providers)
    requires forall i :: 0 <= i < |msgs| ==> msgs[i].channel != EmailChannel && msgs[i].channel != SmsChannel
    ensures Dispatch(event, msgs, tokens, pr) == Dispatched([], None)
  {
    var hs := Outcomes(event, msgs, tokens, pr);
    assert forall i :: 0 <= i < |hs| ==> hs[i] == Handled(None, None);
    NothingHandled(hs);
  }

  lemma {:induction false} NothingHandled(hs: seq<Handled>)
    requires forall i :: 0 <= i < |hs| ==> hs[i] == Handled(None, None)
    ensures Run(hs) == Dispatched([], None)
  {
    if hs != [] {
      var init := hs[..|hs| - 1];
      assert forall i :: 0 <= i < |init| ==> init[i] == hs[i];
      NothingHandled(init);
    }
  }

  /** A missing plain-text template only drops the alternative body: the
      email goes out as if the text template were blank. */
  lemma MissingTextTemplateIgnored(event: string, msg: NotificationChannelPayload, tokens: Json, pr: Providers)
    requires pr.findTemplate(TemplateQuery(event, msg.channel, TextMime)).Err?
    ensures var h := EmailOutcome(event, msg, tokens, pr);
            h.sent.Some? ==> h.sent.value.alternative.None?
    ensures msg.data != JNull && pr.decodeEmail(msg.data).Ok? && pr.findTemplate(TemplateQuery(event, msg.channel, HtmlMime)).Ok?
            && pr.compile(pr.findTemplate(TemplateQuery(event, msg.channel, HtmlMime)).value.body, tokens).Ok?
            && pr.compile(pr.findTemplate(TemplateQuery(event, msg.channel, HtmlMime)).value.subject, tokens).Ok? ==>
              EmailOutcome(event, msg, tokens, pr).sent.Some?
  {
  }
}
