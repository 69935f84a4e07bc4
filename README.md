# python-lambda-classes in Dafny

A model of the request-building and configuration logic of the AWS Lambda helper
classes in python-lambda-classes. Each class wraps one vendor call. The model covers
what each class decides before and after that call:

- **MerkleSftp** (`Merkle`): the survey answers chosen from the contact type and the
  prescription flag, the XML interaction document, the timestamped export file name,
  the stage's SFTP account, and the paths of the upload.
- **SimpleEmailService** (`SimpleEmail`): the region and charset defaults, the
  stage-dependent recipient and subject, and the shape of the `send_email` request.
- **Dynamo** (`ContactTable`): the table chosen per environment, the contact item that
  `dynamo_put` writes, the `update_item` request, and the pass/fail results of get, put
  and update.
- **Notifications** (`RevHealthNotifications`): the failure payload with its `origin`
  precedence, and `send_notification`'s result.
- **MsTeams** (`Teams`): the all-or-nothing MessageCard build and the webhook result.
- **Epsilon** (`Epsilon`): the `profile` and `data` parameters, the registration token,
  and the `setAccountInfo` request and result.
- **OpusHealthPartnerInterface** (`OpusHealth`): the SOAP envelope, the fixed headers,
  and the document-number lookup in the parsed response.

`Base` holds the shared values: `Option`, a JSON-like `Json`, and the outcome of one
external call (`Reply`: it raised, or a response came with a status and a body that may
or may not parse). `Response.ok` is false exactly for status codes 400 to 599. `Exit`
says whether a Python method returned or let an exception propagate. `Text` holds the
decimal digits and the two `strftime` layouts the Merkle export uses, with round-trip
lemmas.

The clock, `uuid.uuid4()` and `os.environ` are parameters: `DateTime` readings, strings,
and records of environment values. Each SDK or HTTP call is replaced by its outcome,
which is passed in. Methods return both the request they would send and their result.

## Model

| member | source | states |
|---|---|---|
| Merkle.PrescriptionAnswer | merkle/merkle.py:53-68 | an answer exists iff contact type is 2 or 3; its QuestionID is the number 9840 + contact type (9842 or 9843); AnswerID is "1" iff the prescription flag is set and "2" iff it is not |
| Merkle.BuildXmlProp | merkle/merkle.py:47-68 | the fragment is "" iff contact type is neither 2 nor 3; for 2 and 3 it is the Answer tag with QuestionID 9842 or 9843 and AnswerID 1 or 2 by the flag |
| Merkle.BuildPayload | merkle/merkle.py:70-99 | CaptureDate, ResponseDate and SurveyDate are one stamp, in `%Y-%m-%dT%H:%M:%S` form, and it reads back as the clock reading; the survey holds answer 1 to question 9840 and an answer to 9841 equal to the contact type; the prescription fragment is `build_xml_prop`'s; meta and contact fields are copied |
| Merkle.Render | merkle/merkle.py:81-96 | the document starts with the UTF-8 XML declaration |
| Merkle.Filename | merkle/merkle.py:108-133 | the name is `_` + ProductCode + `_CNSMR_W_` + 14 digits + `_4.xml`, 30 characters longer than the product code; the 14 digits read back as the clock reading |
| Merkle.CredentialsFor | merkle/merkle.py:39-45 | stage "prod" selects the prod account, every other stage the test account |
| Merkle.MerkleSftp.constructor | merkle/merkle.py:12-31 | stage, meta and data are kept; the filename comes from the first clock reading, the payload from the second; the credentials are the stage's |
| Merkle.MerkleSftp.SetCredentials | merkle/merkle.py:33-45 | both credential fields are set to the stage's account |
| Merkle.MerkleSftp.TransferData | merkle/merkle.py:149-190 | unless saving the document fails, it is saved as /tmp/<filename>; port 22 and the stored credentials are used; a save or connect failure propagates and nothing is uploaded; otherwise /tmp/<filename> is uploaded to /Inbox/<filename> |
| Text.FixedValue | merkle/merkle.py:124 | a zero-padded field of enough width reads back as its number |
| Text.Compact | merkle/merkle.py:124 | the `%Y%m%d%H%M%S` stamp has 14 characters, all digits |
| Text.CompactFields | merkle/merkle.py:124 | the six fixed-width parts of the `%Y%m%d%H%M%S` stamp sit at offsets 0, 4, 6, 8, 10 and 12 |
| Text.CompactRoundTrip | merkle/merkle.py:124 | the `%Y%m%d%H%M%S` stamp reads back as the clock reading |
| Text.Iso | merkle/merkle.py:77 | the `%Y-%m-%dT%H:%M:%S` stamp has digit groups between `-`, `T` and `:` |
| Text.IsoRoundTrip | merkle/merkle.py:77 | the `%Y-%m-%dT%H:%M:%S` stamp reads back as the clock reading |
| Text.DecimalValue | merkle/merkle.py:90 | `str()` of a natural number reads back as that number |
| Text.IntToString | merkle/merkle.py:90 | `str()` of an integer is its digits (after a `-` when negative), with no leading zero, and reads back as it |
| SimpleEmail.MetaFor | aws/simpleEmailService.py:71-81 | "v1" selects the prod receiver and subject, "stage" the staging receiver and test subject, anything else keeps the current pair |
| SimpleEmail.LastRecognisedStageWins | aws/simpleEmailService.py:55-88 | after a series of `set_email_meta` calls the pair is the one of the last "v1" or "stage" call, or the starting pair when there was none |
| SimpleEmail.MetaIdempotent | aws/simpleEmailService.py:55-88 | calling `set_email_meta` twice with one stage equals calling it once |
| SimpleEmail.SourceHeader | aws/simpleEmailService.py:120 | `Source` is the from-name, then ` <`, then the sender, then `>` |
| SimpleEmail.SimpleEmailService.constructor | aws/simpleEmailService.py:12-26 | region "us-east-1" for the object and its client, charset "UTF-8", the dev receiver and the test subject |
| SimpleEmail.SimpleEmailService.SetRegion | aws/simpleEmailService.py:28-40 | only `region_name` changes; the client keeps its region |
| SimpleEmail.SimpleEmailService.SetCharset | aws/simpleEmailService.py:42-53 | only `charset` changes |
| SimpleEmail.SimpleEmailService.SetEmailMeta | aws/simpleEmailService.py:55-88 | receiver and subject become `MetaFor` of the stage and the old pair |
| SimpleEmail.SimpleEmailService.SendEmail | aws/simpleEmailService.py:90-131 | one request to the receiver with `charset` for body and subject, the subject, and the `Source` header; False iff the call raised |
| ContactTable.ContactKey | dynamo.py:51-53 | the key is exactly the contact's e-mail |
| ContactTable.NewContactItem | dynamo.py:130-142 | the item has exactly the seven attributes; name, phone, email and message are copied; id and create_date are the given strings; edit_date is None |
| ContactTable.UpdateRequestAsWritten | dynamo.py:81-100 | the update as written is keyed on the e-mail, uses only defined placeholders and aliases, sets name, phone, email, messsage and edit_date, and reaches `name` only through `#contact_name` |
| ContactTable.AsWrittenUpdateRefused | dynamo.py:81-100 | the update as written uses every placeholder and alias it defines, yet is not acceptable, because it sets the key attribute |
| ContactTable.AsWrittenUpdateSetsKey | dynamo.py:83-86 | the update as written sets `email`, the table's key attribute |
| ContactTable.AsWrittenUpdateMissesMessage | dynamo.py:86-91 | the update as written writes a new attribute `messsage` with the new message and leaves the stored `message` as it was |
| ContactTable.UpdateRequestFor | dynamo.py:81-100 | keyed on the e-mail; sets name, phone, message and edit_date in that order, never the key; `name` only through the `#contact_name` alias; every placeholder defined |
| ContactTable.IntendedUpdateAcceptable | dynamo.py:81-100 | the corrected update defines every placeholder and alias it uses, uses every one it defines, and leaves the key attribute alone |
| ContactTable.UpdateOverwritesStoredContact | dynamo.py:81-100 | updating a stored contact keeps id, email and create_date, takes name, phone and message from the new data, and sets edit_date |
| ContactTable.Dynamo.ActiveTable | dynamo.py:23-32 | production selects the prod table name, otherwise the staging name |
| ContactTable.Dynamo.GetAsWritten | dynamo.py:34-64 | get goes to the active table with the e-mail key; None when the key is missing from the form or the call raised; the item when one was found; raises when none was found |
| ContactTable.Dynamo.Get | dynamo.py:34-64 | get never raises; a request is sent iff the form has an e-mail; it returns an item iff the call answered with one, and that item |
| ContactTable.GetAgreesWhereAsWrittenReturns | dynamo.py:55-64 | wherever the written get returns, the corrected get returns the same |
| ContactTable.Dynamo.Put | dynamo.py:112-150 | put sends `NewContactItem` to the active table iff the form has all four fields; True iff it was sent and did not raise |
| ContactTable.Dynamo.UpdateItemAsWritten | dynamo.py:66-110 | update as written sends its request to the active table iff the form has all four fields; True iff it was sent and did not raise |
| ContactTable.Dynamo.UpdateItem | dynamo.py:66-110 | update sends the corrected request to the active table iff the form has all four fields; True iff it was sent and did not raise |
| RevHealthNotifications.Origin | revHealth/reavhealth_notifications.py:72-77 | an `origin` header wins; else a `postman-token` header gives "postman"; else there is no origin |
| RevHealthNotifications.FailurePayload | revHealth/reavhealth_notifications.py:60-77 | the eight base keys, plus `origin` iff there is one; status "failed"; function name and description from the call; domain, path and method from the request context; lambda name and log stream from the environment |
| RevHealthNotifications.Notifications.constructor | revHealth/reavhealth_notifications.py:9-21 | endpoint and event are kept; no payload yet |
| RevHealthNotifications.Notifications.SetPayload | revHealth/reavhealth_notifications.py:50-79 | the in-place build (base map, then `origin` from `postman-token`, then overwritten from `origin`) yields `FailurePayload` |
| RevHealthNotifications.Notifications.SendNotification | revHealth/reavhealth_notifications.py:23-48 | rebuilds the payload, posts it with the `contentType` header, and returns True whether or not the post raised |
| Teams.Card | teams/teams.py:30-65 | a card exists iff all six keys are present; it is a "MessageCard" with summary "Lambda Failure!!!", one section titled by lambda and function name with the fixed activity image, facts Location, Status, Description in that order from the input, and one OpenUri "View Logs" action targeting `logs_link` |
| Teams.MsTeams.constructor | teams/teams.py:12-19 | no payload yet |
| Teams.MsTeams.BuildPayload | teams/teams.py:21-73 | True iff all keys are present; then the payload is the card; otherwise the payload keeps its previous value |
| Teams.MsTeams.SendWebhookMessageToChannel | teams/teams.py:75-109 | posts the stored payload with the JSON content type; True iff the post completed with an ok response |
| Epsilon.Profile | epsilon/epsilon.py:147-155 | the profile has exactly the seven keys firstName, lastName, email, zip, address, city, state |
| Epsilon.ProfileFollowsFieldMap | epsilon/epsilon.py:147-155 | the profile's keys are those of the renaming table, and each holds the form field the table pairs it with (firstname to firstName, lastname to lastName, the rest unchanged) |
| Epsilon.BuildLookup | epsilon/epsilon.py:175-194 | a dictionary written out entry by entry, with distinct names, has exactly those names, each with its value |
| Epsilon.AssembleLookup | epsilon/epsilon.py:175-194 | fields renamed from the form followed by fixed fields give exactly the fields of both tables, each copied field holding its form field and each fixed field its value |
| Epsilon.DataParam | epsilon/epsilon.py:175-194 | exactly the eighteen fields of the renaming table and the fixed table: each copied field holds its form field (every `_date` field the form's `date`); the fixed ones are source "Intouch", identity type "Y", channel "WEB", e-mail preference true, opt-out false, terms true |
| Epsilon.InitExit | epsilon/epsilon.py:41-81 | the call returns True iff the reply would set a token; False on an exception or a response that is not ok |
| Epsilon.LastSuccess | epsilon/epsilon.py:26-81 | the index found is a call that returned True with no later call returning True; None only when no call returned True |
| Epsilon.TokenIsFromLastSuccess | epsilon/epsilon.py:26-81 | after a series of calls the token is the one from the last call that returned True, or the starting token when none did |
| Epsilon.Epsilon.constructor | epsilon/epsilon.py:9-24 | region and key are kept; token and both parameters start as None |
| Epsilon.Epsilon.SetRegistrationToken | epsilon/epsilon.py:26-81 | posts `isLite` and the key to `accounts.initRegistration`; ends as `InitExit`; the token changes only on a successful call, to the reply's `regToken` |
| Epsilon.Epsilon.BuildProfileParam | epsilon/epsilon.py:137-163 | the stored profile parameter is `Profile` of the data |
| Epsilon.Epsilon.BuildDataParam | epsilon/epsilon.py:165-202 | the stored data parameter is `DataParam` of the data |
| Epsilon.Epsilon.PostRegistration | epsilon/epsilon.py:83-135 | rebuilds both parameters, sends them with the current token to `accounts.setAccountInfo`; False on an exception or a response that is not ok, True on an ok JSON response |
| OpusHealth.JoinInterpolates | OpusHealth/OPUS_health.py:54-67 | joining four fixed parts around three values places each value between its two parts |
| OpusHealth.Envelope | OpusHealth/OPUS_health.py:50-67 | the user name and password sit in the SOAP header's elements and the group number in `GetNextAvailableDocumentNumber`; an unset value appears as "None" |
| OpusHealth.LookupAppend | OpusHealth/OPUS_health.py:107-108 | looking up a path is looking up its first part, then the rest from there |
| OpusHealth.LookupNest | OpusHealth/OPUS_health.py:107-108 | a value nested under a path is found again at that path |
| OpusHealth.GetDocumentNumber | OpusHealth/OPUS_health.py:93-108 | returns iff the five-key path exists in the parsed response, and then returns the value there |
| OpusHealth.DocumentNumberOfNestedResponse | OpusHealth/OPUS_health.py:107-108 | a response holding a number along the five keys yields that number |
| OpusHealth.NoEnvelopeNoNumber | OpusHealth/OPUS_health.py:107 | a response without `soap:Envelope` yields no number |
| OpusHealth.OpusHealthPartnerInterface.constructor | OpusHealth/OPUS_health.py:11-26 | the headers are `text/xml;charset=utf-8` and `gzip,deflate`; url, payload, user, password and groupid are None |
| OpusHealth.OpusHealthPartnerInterface.SetMeta | OpusHealth/OPUS_health.py:28-48 | the four fields take the arguments, and the result is True |
| OpusHealth.OpusHealthPartnerInterface.SetPayload | OpusHealth/OPUS_health.py:50-69 | the payload is the envelope of the current user, password and group id |
| OpusHealth.OpusHealthPartnerInterface.PostRequest | OpusHealth/OPUS_health.py:72-91 | the envelope is rebuilt from the current meta before the post; the post carries the url, that envelope and the fixed headers; the response is returned |

## Left out

- The SDK and network calls themselves (boto3, `requests`, paramiko). Each is replaced by its outcome, passed in.
- Logging, `json.dumps`, `ET.fromstring`, `ElementTree.write` and the `/tmp` file write. `xmltodict.parse` is left out too: `GetDocumentNumber` takes the parsed response.
- Payloads are structured values, not serialised text. Values are interpolated without XML escaping, and no well-formedness is claimed.
- Merkle.Render: states only that the text starts with the XML declaration. The rest of the template is the function's body.
- Text.DateTime: years before 1000 are not modelled. `%Y` would pad them, but the clock never produces them.
- Merkle.Contact: `contact_type` is taken as the integer `int()` makes of it. A value `int()` cannot parse is not modelled; neither is a string contact type whose `str()` differs from its integer in the 9841 answer. `has_prescription` is taken as its truthiness.
- Missing input keys are not modelled where the source does not catch the KeyError. In Epsilon they are excluded by `requires`. In Merkle the typed `Meta` and `Contact` records always hold every field, so a missing key cannot be expressed. Teams and the Dynamo calls catch it, and that path is modelled. Notifications does not catch it either; see the next line.
- RevHealthNotifications.Notifications.SendNotification: promises True only for an event that has `requestContext`, its `http` part and `headers`, with the two `AWS_LAMBDA_*` variables set. `set_payload` (revHealth/reavhealth_notifications.py:61-77) raises KeyError otherwise, before the `try` at line 39, and that path is not modelled: the model's `Event` and `LambdaEnv` always hold these values.
- Merkle.MerkleSftp.TransferData: saving the document (`ET.fromstring`, the file write) and the connection are reduced to whether each raised, passed in as `saveRaises` and `connectRaises`.
- OpusHealth.GetDocumentNumber: a non-dictionary value part-way along the path raises TypeError in Python. It is modelled as the same `Raise` as a missing key.
- OpusHealth.OpusHealthPartnerInterface.PostRequest: when the post raises, `return r` fails on an unbound name. That runtime error is not modelled; the method takes the response the post returned.
- Epsilon.Epsilon.PostRegistration: `requests` leaves out a parameter whose value is None (an unset token). The model sends it as null.
- Epsilon.Epsilon.PostRegistration: `profile` and `data` go out as JSON strings; the model sends the objects.
- ContactTable.NewContactItem: `create_date` is `str(datetime.now())`, passed in as a string. `edit_date` is null, as `dynamo_put` writes it.
- ContactTable.UpdateRequestFor: the new `edit_date` is `str(datetime.now())`, passed in as the string `editDate`. The same holds for `UpdateRequestAsWritten`.
- ContactTable: DynamoDB's refusal to update a key attribute is stated as `SetsKeyAttribute`. The service's reply to such a request is not modelled.
- aws/s3.py, twilio/send_grid.py, adobe/marketo.py, discord_messages/message.py, campaignmonitor.py and aws/dynamo.py are not part of this model. They pass their arguments straight to an SDK or HTTP call.

## Findings

| source | as written | input that shows it | evidently intended | confidence | as-written member | corrected member |
|---|---|---|---|---|---|---|
| dynamo.py:86 | the update expression sets `messsage=:m` | once the key clause is removed, any update: the stored item gains `messsage` and keeps its old `message` | set `message`, the attribute `dynamo_put` writes | not executed | ContactTable.AsWrittenUpdateMissesMessage | ContactTable.UpdateOverwritesStoredContact |
| dynamo.py:83-86 | the update keys on `email` and also sets `email=:e` | any update: DynamoDB refuses to update a key attribute, so the call raises and `dynamo_update_item` returns False | leave the key attribute out of the SET clauses | not executed | ContactTable.AsWrittenUpdateRefused | ContactTable.IntendedUpdateAcceptable |
| dynamo.py:62 | `response["Item"]` subscripts the response | an e-mail with no stored contact: the response has no `Item` and KeyError propagates | return None, so that the caller stores the contact (the comment at lines 58-59) | not executed | ContactTable.Dynamo.GetAsWritten | ContactTable.Dynamo.Get |
