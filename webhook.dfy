/**
 * The packaged module `icinga_slack.webhook`: a `Message` starts with an empty attachment
 * list, `attach` appends one alert attachment to it, and the status page link is a
 * parameter of `attach`.
 */
module Webhook {
  import opened Wrappers
  import opened Payload
  import opened DictForm

  /**
   * The Host field's value: a chat link `<target|label>` whose target is the status page
   * filtered by host (`?host=` and the host) and whose label is the host.
   */
  function HostLink(host: string, statusCgiUrl: string): (link: string)
    ensures |link| == |statusCgiUrl| + 2 * |host| + 9
    ensures link[..|statusCgiUrl| + 7] == "<" + statusCgiUrl + "?host="
    ensures link[|statusCgiUrl| + 7..|statusCgiUrl| + 7 + |host|] == host
    ensures link[|statusCgiUrl| + 7 + |host|] == '|'
    ensures link[|link| - 1 - |host|..|link| - 1] == host
    ensures link[|link| - 1] == '>'
  {
    var prefix := "<" + statusCgiUrl + "?host=";
    assert |prefix| == |statusCgiUrl| + 7;
    var link := prefix + host + "|" + host + ">";
    assert link[..|prefix|] == prefix;
    assert link[|prefix|..|prefix| + |host|] == host;
    assert link[|link| - 1 - |host|..|link| - 1] == host;
    link
  }

  /**
   * The attachment `attach` adds for one alert: the four-space fallback, the alert's fields
   * with the Host link to `statusCgiUrl`, the level's colour, no text or pretext, and so
   * exactly the dict keys fallback, fields and color.
   */
  function AlertAttachment(message: string, host: string, level: string, actionUrl: Option<string>,
                           notesUrl: Option<string>, statusCgiUrl: string): (a: Attachment)
    ensures a.fallback == "    " + message + " on " + host + " is " + level
    ensures a.fields == AlertFields(message, HostLink(host, statusCgiUrl), level, actionUrl, notesUrl)
    ensures a.fields[1].value == "<" + statusCgiUrl + "?host=" + host + "|" + host + ">"
    ensures a.color == Some(ColorFor(level))
    ensures a.text.None? && a.pretext.None?
    ensures Keys(AttachmentDict(a)) == {"fallback", "fields", "color"}
  {
    NewAttachment(fallback := Fallback(message, host, level),
                  fields := AlertFields(message, HostLink(host, statusCgiUrl), level, actionUrl, notesUrl),
                  color := Some(ColorFor(level)))
  }

  class Message {
    var channel: string
    var text: string
    var mrkdwnIn: Option<seq<string>>
    var username: Option<string>
    var iconEmoji: Option<string>
    var attachments: seq<Attachment>

    /** The dict this message is, which `send` serialises; it reads back as this message. */
    function ToDict(): (v: Value)
      reads this
      ensures MessageOf(v) == Some(MessageRecord(channel, text, mrkdwnIn, username, iconEmoji, Some(attachments)))
      ensures v.entries["channel"] == Str(channel) && v.entries["text"] == Str(text)
      ensures "channel" in Keys(v) && "text" in Keys(v) && "attachments" in Keys(v)
      ensures v.entries["attachments"].List? && AttachmentsOf(v.entries["attachments"].items) == Some(attachments)
    {
      MessageRoundTrip(channel, text, mrkdwnIn, username, iconEmoji, Some(attachments));
      MessageDict(channel, text, mrkdwnIn, username, iconEmoji, Some(attachments))
    }

    /** `Message(channel, text, username, mrkdwn_in=["fields"], icon_emoji=":ghost:")`. */
    constructor (channel: string, text: string, username: Option<string>,
                 mrkdwnIn: Option<seq<string>> := Some(["fields"]), iconEmoji: Option<string> := Some(":ghost:"))
      ensures this.channel == channel && this.text == text && attachments == []
      ensures this.mrkdwnIn == IfTruthy(mrkdwnIn)
      ensures this.username == IfTruthy(username)
      ensures this.iconEmoji == IfTruthy(iconEmoji)
      ensures Keys(ToDict()) == {"channel", "text", "attachments"}
                                + (if Truthy(mrkdwnIn) then {"mrkdwn_in"} else {})
                                + (if Truthy(username) then {"username"} else {})
                                + (if Truthy(iconEmoji) then {"icon_emoji"} else {})
    {
      this.channel := channel;
      this.text := text;
      this.mrkdwnIn := IfTruthy(mrkdwnIn);
      this.username := IfTruthy(username);
      this.iconEmoji := IfTruthy(iconEmoji);
      var empty := NewAttachmentList([]);
      attachments := empty;
    }

    /** `attach`: builds the alert's fields and colour and appends one attachment; nothing else changes. */
    method Attach(message: string, host: string, level: string, actionUrl: Option<string> := None,
                  notesUrl: Option<string> := None, statusCgiUrl: string := "")
      modifies this`attachments
      ensures attachments == old(attachments) + [AlertAttachment(message, host, level, actionUrl, notesUrl, statusCgiUrl)]
    {
      var fields := NewFieldList([]);
      fields := fields + [AttachmentField("Message", message)];
      fields := fields + [AttachmentField("Host", HostLink(host, statusCgiUrl), true)];
      fields := fields + [AttachmentField("Level", level, true)];
      ghost var required := fields;
      if Truthy(actionUrl) {
        fields := fields + [AttachmentField("Actions URL", actionUrl.value, true)];
      }
      if Truthy(notesUrl) {
        fields := fields + [AttachmentField("Notes URL", notesUrl.value, true)];
      }
      var color;
      if level in AlertColors {
        color := AlertColors[level];
      } else {
        color := AlertColors["UNKNOWN"];
      }
      var alert := NewAttachment(fallback := Fallback(message, host, level), color := Some(color), fields := fields);
      assert fields == AlertFields(message, HostLink(host, statusCgiUrl), level, actionUrl, notesUrl) by {
        assert required == [AttachmentField("Message", message), AttachmentField("Host", HostLink(host, statusCgiUrl), true),
                            AttachmentField("Level", level, true)];
      }
      attachments := attachments + [alert];
    }

    /** `send`, with the HTTP POST of the serialised dict as `post`: true iff the response body is "ok". */
    method Send(post: Value -> string) returns (ok: bool)
      ensures ok <==> post(ToDict()) == "ok"
    {
      var response := post(ToDict());
      if response == "ok" {
        ok := true;
      } else {
        ok := false;
      }
    }
  }
}
