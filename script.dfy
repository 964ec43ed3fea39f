/**
 * The standalone script `icinga_slack_webhook.py`: a `Message` has no attachment list
 * until `attach`, which replaces it with a one-element list, and the status page link
 * is fixed in the code.
 */
module Script {
  import opened Wrappers
  import opened Payload
  import opened DictForm
  import Webhook

  /** The status page the script links to; also the packaged module's command-line default. */
  const StatusCgiUrl := "https://nagios.example.com/cgi-bin/icinga/status.cgi"

  /** The Host field's value, with the status page written into the format string: the package's link for it. */
  function HostLink(host: string): (link: string)
    ensures link == Webhook.HostLink(host, StatusCgiUrl)
    ensures link[..|StatusCgiUrl| + 7] == "<" + StatusCgiUrl + "?host="
  {
    "<" + StatusCgiUrl + "?host=" + host + "|" + host + ">"
  }

  /**
   * The attachment `attach` stores for one alert: the four-space fallback, the alert's fields
   * with the fixed Host link, the level's colour, and no text or pretext.
   */
  function AlertAttachment(message: string, host: string, level: string,
                           actionUrl: Option<string>, notesUrl: Option<string>): (a: Attachment)
    ensures a.fallback == "    " + message + " on " + host + " is " + level
    ensures a.fields == AlertFields(message, HostLink(host), level, actionUrl, notesUrl)
    ensures a.color == Some(ColorFor(level))
    ensures a.text.None? && a.pretext.None?
  {
    NewAttachment(fallback := Fallback(message, host, level),
                  fields := AlertFields(message, HostLink(host), level, actionUrl, notesUrl),
                  color := Some(ColorFor(level)))
  }

  /**
   * The script's alert attachment is the one the package builds with the fixed status page;
   * in particular its fallback, Host link and colour.
   */
  lemma AlertAttachmentIsPackageAttachment(message: string, host: string, level: string,
                                           actionUrl: Option<string>, notesUrl: Option<string>)
    ensures AlertAttachment(message, host, level, actionUrl, notesUrl)
         == Webhook.AlertAttachment(message, host, level, actionUrl, notesUrl, StatusCgiUrl)
    ensures var a := AlertAttachment(message, host, level, actionUrl, notesUrl);
      && a.fallback == "    " + message + " on " + host + " is " + level
      && a.fields[1] == AttachmentField("Host", "<" + StatusCgiUrl + "?host=" + host + "|" + host + ">", true)
      && a.color == Some(ColorFor(level))
  {
  }

  class Message {
    var channel: string
    var text: string
    var mrkdwnIn: Option<seq<string>>
    var username: Option<string>
    var iconEmoji: Option<string>
    var attachments: Option<seq<Attachment>>

    /** The dict this message is, which `send` serialises; it has attachments only once `attach` ran. */
    function ToDict(): (v: Value)
      reads this
      ensures MessageOf(v) == Some(MessageRecord(channel, text, mrkdwnIn, username, iconEmoji, attachments))
      ensures v.entries["channel"] == Str(channel) && v.entries["text"] == Str(text)
      ensures "channel" in Keys(v) && "text" in Keys(v)
      ensures "attachments" in Keys(v) <==> attachments.Some?
      ensures attachments.Some? ==> v.entries["attachments"].List?
                                    && AttachmentsOf(v.entries["attachments"].items) == attachments
    {
      MessageRoundTrip(channel, text, mrkdwnIn, username, iconEmoji, attachments);
      MessageDict(channel, text, mrkdwnIn, username, iconEmoji, attachments)
    }

    /** `Message(channel, text='Received the following alert:', mrkdwn_in=["fields"], username="Icinga", icon_emoji=":ghost:")`. */
    constructor (channel: string, text: string := "Received the following alert:",
                 mrkdwnIn: Option<seq<string>> := Some(["fields"]), username: Option<string> := Some("Icinga"),
                 iconEmoji: Option<string> := Some(":ghost:"))
      ensures this.channel == channel && this.text == text && attachments.None?
      ensures this.mrkdwnIn == IfTruthy(mrkdwnIn)
      ensures this.username == IfTruthy(username)
      ensures this.iconEmoji == IfTruthy(iconEmoji)
      ensures Keys(ToDict()) == {"channel", "text"}
                                + (if Truthy(mrkdwnIn) then {"mrkdwn_in"} else {})
                                + (if Truthy(username) then {"username"} else {})
                                + (if Truthy(iconEmoji) then {"icon_emoji"} else {})
    {
      this.channel := channel;
      this.text := text;
      this.mrkdwnIn := IfTruthy(mrkdwnIn);
      this.username := IfTruthy(username);
      this.iconEmoji := IfTruthy(iconEmoji);
      attachments := None;
    }

    /** `attach`: the attachment list becomes exactly the new attachment, whatever it held; nothing else changes. */
    method Attach(message: string, host: string, level: string,
                  actionUrl: Option<string> := None, notesUrl: Option<string> := None)
      modifies this`attachments
      ensures attachments == Some([AlertAttachment(message, host, level, actionUrl, notesUrl)])
      ensures "attachments" in Keys(ToDict())
    {
      var fields := NewFieldList([]);
      fields := fields + [AttachmentField("Message", message)];
      fields := fields + [AttachmentField("Host", HostLink(host), true)];
      fields := fields + [AttachmentField("Level", level, true)];
      ghost var required := fields;
      if Truthy(actionUrl) {
        fields := fields + [AttachmentField("Actions URL", actionUrl.value, true)];
      }
      if Truthy(notesUrl) {
        fields := fields + [AttachmentField("Notes URL", notesUrl.value, true)];
      }
      var color;
      if level in AlertColors {
        color := AlertColors[level];
      } else {
        color := AlertColors["UNKNOWN"];
      }
      var alert := NewAttachment(fallback := Fallback(message, host, level), color := Some(color), fields := fields);
      assert fields == AlertFields(message, HostLink(host), level, actionUrl, notesUrl) by {
        assert required == [AttachmentField("Message", message), AttachmentField("Host", HostLink(host), true),
                            AttachmentField("Level", level, true)];
      }
      var list := NewAttachmentList([alert]);
      assert list == [alert];
      attachments := Some(list);
    }

    /** `send`, with the HTTP POST of the serialised dict as `post`: true iff the response body is "ok". */
    method Send(post: Value -> string) returns (ok: bool)
      ensures ok <==> post(ToDict()) == "ok"
    {
      var response := post(ToDict());
      if response == "ok" {
        ok := true;
      } else {
        ok := false;
      }
    }
  }
}
