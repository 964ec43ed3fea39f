/**
 * Every record of the payload is a Python dict (or list) that `json.dumps` serialises.
 * This module gives each record its dict form as a JSON-like `Value`, says which keys
 * that dict has, and reads a dict back, so that the dict form provably loses nothing.
 */
module DictForm {
  import opened Wrappers
  import opened Payload

  datatype Value = Str(s: string) | Bool(b: bool) | List(items: seq<Value>) | Dict(entries: map<string, Value>)

  /** The keys of a dict; other values have none. */
  function Keys(v: Value): set<string> {
    if v.Dict? then v.entries.Keys else {}
  }

  function StrList(ss: seq<string>): (vs: seq<Value>)
    ensures |vs| == |ss| && forall i :: 0 <= i < |ss| ==> vs[i] == Str(ss[i])
  {
    if ss == [] then [] else [Str(ss[0])] + StrList(ss[1..])
  }

  /** The dict an `AttachmentField` is. */
  function FieldDict(f: AttachmentField): (v: Value)
    ensures Keys(v) == {"title", "value", "short"}
  {
    Dict(map["title" := Str(f.title), "value" := Str(f.value), "short" := Bool(f.short)])
  }

  /** A field built without `short` has the three keys and a false short flag. */
  lemma FieldDefaults(title: string, value: string)
    ensures var v := FieldDict(AttachmentField(title, value));
      "title" in Keys(v) && "value" in Keys(v) && "short" in Keys(v) && v.entries["short"] == Bool(false)
  {
  }

  function FieldDicts(fs: seq<AttachmentField>): (vs: seq<Value>)
    ensures |vs| == |fs|
    ensures forall i :: 0 <= i < |fs| ==> vs[i] == FieldDict(fs[i])
  {
    if fs == [] then [] else [FieldDict(fs[0])] + FieldDicts(fs[1..])
  }

  /** `d[key] = v` when `v` is present; `d` itself otherwise. */
  function SetIfPresent(d: map<string, Value>, key: string, v: Option<Value>): (r: map<string, Value>)
    ensures r.Keys == if v.Some? then d.Keys + {key} else d.Keys
    ensures v.Some? ==> r[key] == v.value
    ensures forall k :: k in d && k != key ==> k in r && r[k] == d[k]
  {
    if v.Some? then d[key := v.value] else d
  }

  function StrValue(v: Option<string>): Option<Value> {
    if v.Some? then Some(Str(v.value)) else None
  }

  /**
   * The dict an `Attachment` is: fallback and fields always, text, pretext and color when
   * present, each holding the record's value; the fields are the field dicts, in order.
   */
  function AttachmentDict(a: Attachment): (v: Value)
    ensures v.Dict? && "fallback" in Keys(v) && "fields" in Keys(v)
    ensures ("text" in Keys(v) <==> a.text.Some?) && ("pretext" in Keys(v) <==> a.pretext.Some?)
    ensures "color" in Keys(v) <==> a.color.Some?
    ensures Keys(v) <= {"fallback", "fields", "text", "pretext", "color"}
    ensures v.entries["fallback"] == Str(a.fallback) && v.entries["fields"] == List(FieldDicts(a.fields))
    ensures a.text.Some? ==> v.entries["text"] == Str(a.text.value)
    ensures a.pretext.Some? ==> v.entries["pretext"] == Str(a.pretext.value)
    ensures a.color.Some? ==> v.entries["color"] == Str(a.color.value)
  {
    var d0 := map["fallback" := Str(a.fallback), "fields" := List(FieldDicts(a.fields))];
    var d1 := SetIfPresent(d0, "text", StrValue(a.text));
    var d2 := SetIfPresent(d1, "pretext", StrValue(a.pretext));
    Dict(SetIfPresent(d2, "color", StrValue(a.color)))
  }

  function AttachmentDicts(atts: seq<Attachment>): (vs: seq<Value>)
    ensures |vs| == |atts|
    ensures forall i :: 0 <= i < |atts| ==> vs[i] == AttachmentDict(atts[i])
  {
    if atts == [] then [] else [AttachmentDict(atts[0])] + AttachmentDicts(atts[1..])
  }

  /**
   * The dict a `Message` is: channel and text always; mrkdwn_in, username, icon_emoji and
   * attachments when present, each holding the message's own value. The attachment list
   * reads back unchanged.
   */
  function MessageDict(channel: string, text: string, mrkdwnIn: Option<seq<string>>, username: Option<string>,
                       iconEmoji: Option<string>, attachments: Option<seq<Attachment>>): (v: Value)
    ensures v.Dict? && "channel" in Keys(v) && "text" in Keys(v)
    ensures ("mrkdwn_in" in Keys(v) <==> mrkdwnIn.Some?) && ("username" in Keys(v) <==> username.Some?)
    ensures ("icon_emoji" in Keys(v) <==> iconEmoji.Some?) && ("attachments" in Keys(v) <==> attachments.Some?)
    ensures Keys(v) <= {"channel", "text", "mrkdwn_in", "username", "icon_emoji", "attachments"}
    ensures v.entries["channel"] == Str(channel) && v.entries["text"] == Str(text)
    ensures mrkdwnIn.Some? ==> v.entries["mrkdwn_in"] == List(StrList(mrkdwnIn.value))
    ensures username.Some? ==> v.entries["username"] == Str(username.value)
    ensures iconEmoji.Some? ==> v.entries["icon_emoji"] == Str(iconEmoji.value)
    ensures attachments.Some? ==> v.entries["attachments"] == List(AttachmentDicts(attachments.value))
    ensures attachments.Some? ==> "attachments" in v.entries && v.entries["attachments"].List?
                                  && AttachmentsOf(v.entries["attachments"].items) == attachments
  {
    var d0 := map["channel" := Str(channel), "text" := Str(text)];
    var d1 := SetIfPresent(d0, "mrkdwn_in", if mrkdwnIn.Some? then Some(List(StrList(mrkdwnIn.value))) else None);
    var d2 := SetIfPresent(d1, "username", StrValue(username));
    var d3 := SetIfPresent(d2, "icon_emoji", StrValue(iconEmoji));
    if attachments.None? then Dict(d3)
    else
      var items := AttachmentDicts(attachments.value);
      AttachmentsRoundTrip(attachments.value);
      assert AttachmentsOf(items) == attachments;
      Dict(d3["attachments" := List(items)])
  }

  /** Reads a field dict back. */
  function FieldOf(v: Value): Option<AttachmentField> {
    if v.Dict? && "title" in v.entries && "value" in v.entries && "short" in v.entries
       && v.entries["title"].Str? && v.entries["value"].Str? && v.entries["short"].Bool?
    then Some(AttachmentField(v.entries["title"].s, v.entries["value"].s, v.entries["short"].b))
    else None
  }

  function FieldsOf(vs: seq<Value>): Option<seq<AttachmentField>> {
    if vs == [] then Some([])
    else match (FieldOf(vs[0]), FieldsOf(vs[1..]))
      case (Some(f), Some(rest)) => Some([f] + rest)
      case _ => None
  }

  /** Reads an optional string key: `Some(None)` when absent, `None` when it holds no string. */
  function OptionalStrOf(m: map<string, Value>, key: string): Option<Option<string>> {
    if key !in m then Some(None)
    else if m[key].Str? then Some(Some(m[key].s))
    else None
  }

  /** Reads an attachment dict back. */
  function AttachmentOf(v: Value): Option<Attachment> {
    if v.Dict? && "fallback" in v.entries && "fields" in v.entries
       && v.entries["fallback"].Str? && v.entries["fields"].List?
    then
      match (FieldsOf(v.entries["fields"].items), OptionalStrOf(v.entries, "text"),
             OptionalStrOf(v.entries, "pretext"), OptionalStrOf(v.entries, "color"))
      case (Some(fs), Some(text), Some(pretext), Some(color)) =>
        Some(Attachment(v.entries["fallback"].s, fs, text, pretext, color))
      case _ => None
    else None
  }

  function AttachmentsOf(vs: seq<Value>): Option<seq<Attachment>> {
    if vs == [] then Some([])
    else match (AttachmentOf(vs[0]), AttachmentsOf(vs[1..]))
      case (Some(a), Some(rest)) => Some([a] + rest)
      case _ => None
  }

  function StrsOf(vs: seq<Value>): Option<seq<string>> {
    if vs == [] then Some([])
    else match (vs[0], StrsOf(vs[1..]))
      case (Str(s), Some(rest)) => Some([s] + rest)
      case _ => None
  }

  /** Reads an optional list-of-strings key: `Some(None)` when absent, `None` when malformed. */
  function OptionalStrsOf(m: map<string, Value>, key: string): Option<Option<seq<string>>> {
    if key !in m then Some(None)
    else if m[key].List? then
      match StrsOf(m[key].items)
      case Some(ss) => Some(Some(ss))
      case None => None
    else None
  }

  /** Reads the optional attachments key: `Some(None)` when absent, `None` when malformed. */
  function OptionalAttachmentsOf(m: map<string, Value>): Option<Option<seq<Attachment>>> {
    if "attachments" !in m then Some(None)
    else if m["attachments"].List? then
      match AttachmentsOf(m["attachments"].items)
      case Some(atts) => Some(Some(atts))
      case None => None
    else None
  }

  /** What a message dict holds, key by key; an absent optional key is `None`. */
  datatype MessageRecord = MessageRecord(
    channel: string,
    text: string,
    mrkdwnIn: Option<seq<string>>,
    username: Option<string>,
    iconEmoji: Option<string>,
    attachments: Option<seq<Attachment>>)

  /** Reads a message dict back. */
  function MessageOf(v: Value): Option<MessageRecord> {
    if v.Dict? && "channel" in v.entries && "text" in v.entries
       && v.entries["channel"].Str? && v.entries["text"].Str?
    then
      match (OptionalStrsOf(v.entries, "mrkdwn_in"), OptionalStrOf(v.entries, "username"),
             OptionalStrOf(v.entries, "icon_emoji"), OptionalAttachmentsOf(v.entries))
      case (Some(mrkdwnIn), Some(username), Some(iconEmoji), Some(attachments)) =>
        Some(MessageRecord(v.entries["channel"].s, v.entries["text"].s, mrkdwnIn, username, iconEmoji, attachments))
      case _ => None
    else None
  }

  lemma FieldRoundTrip(f: AttachmentField)
    ensures FieldOf(FieldDict(f)) == Some(f)
  {
  }

  /** A field list read back from its dict form is the list itself. */
  lemma {:induction false} FieldsRoundTrip(fs: seq<AttachmentField>)
    ensures FieldsOf(FieldDicts(fs)) == Some(fs)
  {
    if fs != [] {
      var vs := FieldDicts(fs);
      assert vs[1..] == FieldDicts(fs[1..]);
      FieldRoundTrip(fs[0]);
      FieldsRoundTrip(fs[1..]);
      assert [fs[0]] + fs[1..] == fs;
    }
  }

  /** An attachment read back from its dict form is the attachment itself. */
  lemma AttachmentRoundTrip(a: Attachment)
    ensures AttachmentOf(AttachmentDict(a)) == Some(a)
  {
    FieldsRoundTrip(a.fields);
    var m := AttachmentDict(a).entries;
    assert m["fallback"] == Str(a.fallback);
    assert m["fields"] == List(FieldDicts(a.fields));
    assert OptionalStrOf(m, "text") == Some(a.text);
    assert OptionalStrOf(m, "pretext") == Some(a.pretext);
    assert OptionalStrOf(m, "color") == Some(a.color);
  }

  /** An attachment list read back from its dict form is the list itself. */
  lemma {:induction false} AttachmentsRoundTrip(atts: seq<Attachment>)
    ensures AttachmentsOf(AttachmentDicts(atts)) == Some(atts)
  {
    if atts != [] {
      var vs := AttachmentDicts(atts);
      assert vs[1..] == AttachmentDicts(atts[1..]);
      AttachmentRoundTrip(atts[0]);
      AttachmentsRoundTrip(atts[1..]);
      assert [atts[0]] + atts[1..] == atts;
    }
  }

  /** A string list read back from its dict form is the list itself. */
  lemma {:induction false} StrsRoundTrip(ss: seq<string>)
    ensures StrsOf(StrList(ss)) == Some(ss)
  {
    if ss != [] {
      var vs := StrList(ss);
      assert vs[1..] == StrList(ss[1..]);
      StrsRoundTrip(ss[1..]);
      assert [ss[0]] + ss[1..] == ss;
    }
  }

  /** A message read back from its dict form has the same channel, text, optional keys and attachments. */
  lemma MessageRoundTrip(channel: string, text: string, mrkdwnIn: Option<seq<string>>, username: Option<string>,
                         iconEmoji: Option<string>, attachments: Option<seq<Attachment>>)
    ensures MessageOf(MessageDict(channel, text, mrkdwnIn, username, iconEmoji, attachments))
         == Some(MessageRecord(channel, text, mrkdwnIn, username, iconEmoji, attachments))
  {
    var m := MessageDict(channel, text, mrkdwnIn, username, iconEmoji, attachments).entries;
    StrsRoundTrip(if mrkdwnIn.Some? then mrkdwnIn.value else []);
    assert OptionalStrsOf(m, "mrkdwn_in") == Some(mrkdwnIn);
    assert OptionalStrOf(m, "username") == Some(username);
    assert OptionalStrOf(m, "icon_emoji") == Some(iconEmoji);
    assert OptionalAttachmentsOf(m) == Some(attachments);
  }
}
