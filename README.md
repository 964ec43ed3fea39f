# Icinga to Slack webhook payload, modelled in Dafny

The tool turns one Icinga (or Nagios) alert into a Slack incoming-webhook message: a
`Message` dict with a channel, text, optional `mrkdwn_in`, username and icon, and a list of
attachments; each `Attachment` dict carries a fallback text, a colour chosen from the alert
level by the table `alert_colors`, and an ordered list of `AttachmentField` dicts (Message,
Host, Level, and optionally Actions URL and Notes URL). `send` posts the JSON of the message
and reports success iff the response body is `ok`.

The code exists twice: the packaged module `icinga_slack/webhook.py` and the older script
`icinga_slack_webhook.py`. Their colour table, `AttachmentField`, `AttachmentFieldList`,
`Attachment` and `AttachmentList` are the same code (`icinga_slack/webhook.py:10-44`,
`icinga_slack_webhook.py:8-42`) and are modelled once; the two `Message` classes differ and
are modelled side by side.

Modules:

- `Wrappers` (`wrappers.dfy`): `Option`, standing for Python's `None` and for an absent dict key.
- `Payload` (`payload.dfy`): the colour table and lookup, with the datatype `Level` as an
  independent reference for it (a second, match-based copy of the documented colour of each
  of the four levels the command line offers, kept only to pin the table's contents); Python
  truthiness of an optional string or list argument (`Truthy`, `IfTruthy`); the records `AttachmentField` (a datatype whose `short` defaults to
  false) and `Attachment` (a datatype with `Option` fields, built by `NewAttachment`, which
  keeps an optional argument only when it is truthy); the list builders `NewFieldList` and
  `NewAttachmentList`, which append their arguments one by one in a loop; and `AlertFields`,
  the field list `attach` builds, whose Host value is a parameter because that is where the
  two versions differ.
- `DictForm` (`dict_form.dfy`): the dict each record and each message is, as a JSON-like
  `Value` (what `json.dumps` serialises), which keys it has and what they hold, and functions
  reading a dict back, with round-trip lemmas showing the dict form of fields, attachments and
  messages loses nothing.
- `Webhook` (`webhook.dfy`): the packaged `Message` as a class. Its constructor starts an
  empty attachment list; `Attach` builds the fields by appending, picks the colour, and
  appends one attachment; the status page URL is the `statusCgiUrl` argument (default `""`).
- `Script` (`script.dfy`): the script's `Message` as a class whose attachment list is an
  `Option`, absent until `Attach` replaces it with a one-element list; the status page URL is
  the fixed `StatusCgiUrl`. A lemma shows its alert attachment is the package's with that URL.

`send` touches the network; it is modelled with the HTTP round trip as a parameter
`post: Value -> string` that receives the message's dict and returns the response body.

These two files have no link abbreviation, no host-state branches and no extended-info links:
`OK` is `#00FF00`, the fallback starts with four spaces, and the Host field is a full
status-page link.

## Model

| member | source | states |
|---|---|---|
| `Payload.ColorFor` | icinga_slack/webhook.py:69-72 | a level in the table gets the table's colour, any other string the UNKNOWN colour `#6600CC`; the colour is always one of the table's and never empty |
| `Payload.ColorMatchesLevel` | icinga_slack/webhook.py:10-13 | the table agrees with the four-level reference: each named level gets its own colour, every other string UNKNOWN's |
| `Payload.ParseLevel` | icinga_slack/webhook.py:94 | a string is read as a level exactly when it is one of the four level names offered on the command line |
| `Payload.Truthy` | icinga_slack/webhook.py:52-57 | the `if x:` test on an optional argument: `None` is false, a given string or list is true iff it is not empty |
| `Payload.IfTruthy` | icinga_slack/webhook.py:33-38 | `if arg: self[key] = arg` stores the argument exactly when it is given and non-empty, and stores nothing otherwise |
| `Payload.NewAttachment` | icinga_slack/webhook.py:30-38 | an attachment always has its fallback and fields; it has text, pretext and color iff the argument is truthy, and then holds that argument |
| `Payload.NewFieldList` | icinga_slack/webhook.py:24-26 | the field list holds exactly its arguments, in order, with the same length |
| `Payload.NewAttachmentList` | icinga_slack/webhook.py:42-44 | the attachment list holds exactly its arguments, in order, with the same length |
| `Payload.AlertFields` | icinga_slack/webhook.py:61-68 | fields are Message, Host, Level, then Actions URL iff the action URL is truthy, then Notes URL iff the notes URL is truthy; 3 to 5 of them; only the Message field is not short |
| `Payload.Fallback` | icinga_slack/webhook.py:73 | the fallback is `"    {0} on {1} is {2}"` filled in: four spaces, the message, ` on `, the host, ` is `, the level, with nothing else |
| `DictForm.FieldDict` | icinga_slack/webhook.py:17-20 | a field dict has exactly the keys title, value and short |
| `DictForm.FieldDefaults` | tests/test_webhook.py:19-26 | a field built without `short` has the keys title, value and short, and short is false |
| `DictForm.FieldDicts` | icinga_slack/webhook.py:32 | the stored field list is, element by element, the dicts of the fields |
| `DictForm.AttachmentDict` | icinga_slack/webhook.py:30-38 | an attachment dict has fallback and fields, and text, pretext and color exactly when the record holds them, and no other key; each holds the record's value, and fields holds the list of field dicts, which have exactly title, value and short |
| `DictForm.AttachmentDicts` | icinga_slack/webhook.py:74 | the stored attachment list is, element by element, the dicts of the attachments |
| `DictForm.MessageDict` | icinga_slack/webhook.py:50-58 | a message dict has channel and text holding the message's values, each of mrkdwn_in, username, icon_emoji and attachments exactly when present and then holding its value, and no other key |
| `DictForm.FieldRoundTrip` | icinga_slack/webhook.py:17-20 | reading a field dict back gives the field |
| `DictForm.FieldsRoundTrip` | icinga_slack/webhook.py:32 | reading the dict form of a field list back gives the list |
| `DictForm.AttachmentRoundTrip` | icinga_slack/webhook.py:30-38 | reading an attachment dict back gives the attachment |
| `DictForm.AttachmentsRoundTrip` | icinga_slack/webhook.py:77 | reading the dict form of the attachment list that `send` serialises gives the list back |
| `DictForm.StrsRoundTrip` | icinga_slack/webhook.py:53 | reading the dict form of the `mrkdwn_in` list back gives the list |
| `DictForm.MessageRoundTrip` | icinga_slack/webhook.py:77 | reading back the dict of a message, which `send` serialises, gives the same channel, text, mrkdwn_in, username, icon_emoji and attachments |
| `Webhook.HostLink` | icinga_slack/webhook.py:63 | the Host value is `"<{1}?host={0}|{0}>"` filled in: `<`, the status page URL, `?host=`, the host, `|`, the host again as label, `>` |
| `Webhook.AlertAttachment` | icinga_slack/webhook.py:61-73 | the alert attachment's fallback is `"    " + message + " on " + host + " is " + level`, its fields are the alert fields with Host value `"<" + status_cgi_url + "?host=" + host + "|" + host + ">"`, its colour is the level's, it has no text or pretext, and its dict has exactly fallback, fields and color |
| `Webhook.Message.ToDict` | icinga_slack/webhook.py:47-58 | the packaged message's dict reads back as exactly this message: its channel, text, optional keys and its (always present) attachment list |
| `Webhook.Message.constructor` | icinga_slack/webhook.py:48-58 | a new message has channel, text and an empty attachment list, and mrkdwn_in, username and icon_emoji iff each argument is truthy (defaults `["fields"]` and `:ghost:`) |
| `Webhook.Message.Attach` | icinga_slack/webhook.py:60-74 | the attachment list becomes the old list with the alert attachment appended at the end; no other field of the message changes |
| `Webhook.Message.Send` | icinga_slack/webhook.py:76-83 | the result is true iff the body returned for the posted message dict equals `"ok"` |
| `Script.HostLink` | icinga_slack_webhook.py:60 | the script's Host value is the package's with the fixed status page `https://nagios.example.com/cgi-bin/icinga/status.cgi` |
| `Script.AlertAttachment` | icinga_slack_webhook.py:58-70 | the script's alert attachment has the four-space fallback, the alert fields with the fixed Host link, the level's colour, and no text or pretext |
| `Script.AlertAttachmentIsPackageAttachment` | icinga_slack_webhook.py:57-70 | the script's alert attachment equals the package's for the fixed status page: same four-space fallback, same Host link, same colour |
| `Script.Message.ToDict` | icinga_slack_webhook.py:45-55 | the script message's dict reads back as exactly this message: its channel, text, optional keys, and attachments only when the message holds a list |
| `Script.Message.constructor` | icinga_slack_webhook.py:46-55 | a new message has no attachments; text defaults to `Received the following alert:`, username to `Icinga`; mrkdwn_in, username and icon_emoji are present iff truthy |
| `Script.Message.Attach` | icinga_slack_webhook.py:57-71 | the attachment list becomes exactly the one new alert attachment, whatever it held before; no other field changes |
| `Script.Message.Send` | icinga_slack_webhook.py:73-80 | the result is true iff the body returned for the posted message dict equals `"ok"` |

## Left out

- The HTTP call in `send` (`urllib.urlencode`, `urllib.urlopen`, the webhook URL built from subdomain and token) is network I/O; it is the parameter `post` of `Send`. `post` is a total function, so the model does not capture that a failing `urlopen` raises out of `send`: neither source file catches it, and `send` then returns nothing.
- `json.dumps` is a foreign library call; the model stops at the dict form (`DictForm.Value`) and does not model JSON text.
- The `print` of the error response in `send` is an output side effect.
- `parse_options`, `main`, the `__main__` blocks, `sys.exit`, the `__version__` import and `setup.py` are command-line and packaging plumbing. The argparse `choices` restriction on the level is not applied by `attach`, so the level is any string; the four choices appear only as the reference `Level`.
- The `attachments=None` parameter of both `Message` constructors is accepted and ignored by the source; the model's constructors omit it.
- Arguments are modelled as strings, booleans and optional strings or string lists; other Python values a caller could pass are not.
- `AttachmentField` and `Attachment` set their dict keys once, in `__init__`, and are never changed afterwards; they are modelled as values, so the sharing of the same `fields` list object by the local variable and the attachment, and of the mutable default `["fields"]` by all messages, is not modelled (nothing mutates them later).
- Python 2 dicts are unordered; the model's dicts are maps, so key order is not modelled.
