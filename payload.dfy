/**
 * The payload records shared by the packaged module and the standalone script: the
 * severity-to-colour table, the `AttachmentField` and `Attachment` dicts, the two list
 * builders, and the field list that `Message.attach` assembles. Both source files hold
 * the same code for all of these.
 */
module Payload {
  import opened Wrappers

  /** The table `alert_colors`. */
  const AlertColors: map<string, string> :=
    map["UNKNOWN" := "#6600CC", "CRITICAL" := "#FF0000", "WARNING" := "#FF9900", "OK" := "#00FF00"]

  /** The colour `attach` gives an alert of severity `level`, which may be any string. */
  function ColorFor(level: string): (color: string)
    ensures level in AlertColors ==> color == AlertColors[level]
    ensures level !in AlertColors ==> color == "#6600CC"
    ensures color in AlertColors.Values && color != ""
  {
    if level in AlertColors then AlertColors[level] else AlertColors["UNKNOWN"]
  }

  /** The severity levels offered on the command line, as a reference for the table. */
  datatype Level = Unknown | Critical | Warning | Ok

  function LevelName(l: Level): string {
    match l
    case Unknown => "UNKNOWN"
    case Critical => "CRITICAL"
    case Warning => "WARNING"
    case Ok => "OK"
  }

  function LevelColor(l: Level): string {
    match l
    case Unknown => "#6600CC"
    case Critical => "#FF0000"
    case Warning => "#FF9900"
    case Ok => "#00FF00"
  }

  /** Reads a level name back; every other string is not a level. */
  function ParseLevel(s: string): (r: Option<Level>)
    ensures r.Some? ==> LevelName(r.value) == s
    ensures r.None? ==> forall l: Level :: LevelName(l) != s
  {
    if s == "UNKNOWN" then Some(Unknown)
    else if s == "CRITICAL" then Some(Critical)
    else if s == "WARNING" then Some(Warning)
    else if s == "OK" then Some(Ok)
    else None
  }

  /** The table agrees with the reference: a named level gets its own colour, anything else UNKNOWN's. */
  lemma ColorMatchesLevel(s: string)
    ensures ColorFor(s) == match ParseLevel(s) case Some(l) => LevelColor(l) case None => LevelColor(Unknown)
    ensures forall l: Level :: ColorFor(LevelName(l)) == LevelColor(l)
  {
  }

  /** Python truthiness of an optional string or list argument: given, and not empty. */
  predicate Truthy<T>(arg: Option<seq<T>>)
    ensures arg.None? ==> !Truthy(arg)
    ensures arg.Some? ==> (Truthy(arg) <==> arg.value != [])
  {
    arg.Some? && |arg.value| > 0
  }

  /** What `if arg: self[key] = arg` leaves under `key`: the argument when truthy, no entry otherwise. */
  function IfTruthy<T>(arg: Option<seq<T>>): (kept: Option<seq<T>>)
    ensures kept.Some? <==> Truthy(arg)
    ensures kept.Some? ==> kept == arg
  {
    if Truthy(arg) then arg else None
  }

  /** The dict `AttachmentField`: it always has a title, a value and a short flag, by default false. */
  datatype AttachmentField = AttachmentField(title: string, value: string, short: bool := false)

  /** The dict `Attachment`; an optional key that is absent is `None`. */
  datatype Attachment = Attachment(
    fallback: string,
    fields: seq<AttachmentField>,
    text: Option<string>,
    pretext: Option<string>,
    color: Option<string>)

  /** The constructor `Attachment(...)`: fallback and fields always, each optional key iff its argument is truthy. */
  function NewAttachment(fallback: string, fields: seq<AttachmentField>, text: Option<string> := None,
                         pretext: Option<string> := None, color: Option<string> := None): (a: Attachment)
    ensures a.fallback == fallback && a.fields == fields
    ensures (a.text.Some? <==> Truthy(text)) && (a.text.Some? ==> a.text == text)
    ensures (a.pretext.Some? <==> Truthy(pretext)) && (a.pretext.Some? ==> a.pretext == pretext)
    ensures (a.color.Some? <==> Truthy(color)) && (a.color.Some? ==> a.color == color)
  {
    Attachment(fallback, fields, IfTruthy(text), IfTruthy(pretext), IfTruthy(color))
  }

  /** `AttachmentFieldList(*args)`: appends each argument in turn. */
  method NewFieldList(args: seq<AttachmentField>) returns (list: seq<AttachmentField>)
    ensures |list| == |args|
    ensures forall i :: 0 <= i < |args| ==> list[i] == args[i]
  {
    list := [];
    for count := 0 to |args|
      invariant list == args[..count]
    {
      list := list + [args[count]];
    }
  }

  /** `AttachmentList(*args)`: appends each argument in turn. */
  method NewAttachmentList(args: seq<Attachment>) returns (list: seq<Attachment>)
    ensures |list| == |args|
    ensures forall i :: 0 <= i < |args| ==> list[i] == args[i]
  {
    list := [];
    for count := 0 to |args|
      invariant list == args[..count]
    {
      list := list + [args[count]];
    }
  }

  /** Some field of `fields` is titled `title`. */
  predicate HasTitle(fields: seq<AttachmentField>, title: string) {
    exists i :: 0 <= i < |fields| && fields[i].title == title
  }

  /**
   * The field list `attach` builds: Message, Host, Level, then Actions URL and Notes URL
   * when those arguments are truthy. `hostLink` is the Host field's value, the one place
   * where the two versions differ.
   */
  function AlertFields(message: string, hostLink: string, level: string,
                       actionUrl: Option<string>, notesUrl: Option<string>): (fields: seq<AttachmentField>)
    ensures 3 <= |fields| <= 5
    ensures |fields| == 3 + (if Truthy(actionUrl) then 1 else 0) + (if Truthy(notesUrl) then 1 else 0)
    ensures fields[0] == AttachmentField("Message", message, false)
    ensures fields[1] == AttachmentField("Host", hostLink, true)
    ensures fields[2] == AttachmentField("Level", level, true)
    ensures Truthy(actionUrl) ==> fields[3] == AttachmentField("Actions URL", actionUrl.value, true)
    ensures Truthy(notesUrl) ==> fields[|fields| - 1] == AttachmentField("Notes URL", notesUrl.value, true)
    ensures forall i :: 0 <= i < |fields| ==> (fields[i].short <==> i != 0)
    ensures HasTitle(fields, "Actions URL") <==> Truthy(actionUrl)
    ensures HasTitle(fields, "Notes URL") <==> Truthy(notesUrl)
  {
    [AttachmentField("Message", message), AttachmentField("Host", hostLink, true), AttachmentField("Level", level, true)]
    + (if Truthy(actionUrl) then [AttachmentField("Actions URL", actionUrl.value, true)] else [])
    + (if Truthy(notesUrl) then [AttachmentField("Notes URL", notesUrl.value, true)] else [])
  }

  /** The plain-text fallback of an alert attachment: four spaces, the message, " on ", the host, " is ", the level. */
  function Fallback(message: string, host: string, level: string): (fallback: string)
    ensures |fallback| == |message| + |host| + |level| + 12
    ensures fallback[..4] == "    "
    ensures fallback[4..4 + |message|] == message
    ensures fallback[4 + |message|..8 + |message|] == " on "
    ensures fallback[8 + |message|..8 + |message| + |host|] == host
    ensures fallback[8 + |message| + |host|..12 + |message| + |host|] == " is "
    ensures fallback[12 + |message| + |host|..] == level
  {
    var fallback := "    " + message + " on " + host + " is " + level;
    assert fallback[4..4 + |message|] == message;
    assert fallback[8 + |message|..8 + |message| + |host|] == host;
    fallback
  }
}
