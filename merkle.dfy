/** The Merkle consumer-interaction export: an XML survey document built from a
    contact form and pushed over SFTP under a timestamped file name. */
module Merkle {
  import opened Base
  import opened Text

  /** The decoded `mrkle_meta` environment value: fixed codes of the campaign. */
  datatype Meta = Meta(
    externalId: string, sourceCode: string, vendorCode: string, channelCode: string,
    productCode: string, campaignCode: string, promoCode: string, kitCode: string,
    offerCode: string, mediaOriginCode: string)

  /** The posted contact form. `contactType` is the integer the form's `contact_type`
      denotes; `hasPrescription` is the truthiness of `has_prescription`. */
  datatype Contact = Contact(
    address: string, city: string, email: string, firstname: string, lastname: string,
    state: string, zipcode: string, contactType: int, hasPrescription: bool)

  /** The SFTP accounts, read from the environment. */
  datatype FtpEnv = FtpEnv(
    usernameProd: string, passwordProd: string, usernameTest: string, passwordTest: string)

  /** One closed-question answer; `OpenEndedQuestionInd` is always "N". */
  datatype Answer = Answer(answerId: string, questionId: string)

  function AnswerTag(a: Answer): string
  {
    "<Answer AnswerID=\"" + a.answerId + "\" OpenEndedQuestionInd=\"N\" QuestionID=\"" + a.questionId + "\"/>"
  }

  /** The prescription question of the Merkle code spec: question 9842 for contact
      type 2, 9843 for contact type 3, answer 1 for yes and 2 for no; no answer otherwise. */
  function PrescriptionAnswer(contactType: int, hasPrescription: bool): (r: Option<Answer>)
    ensures r.Some? <==> contactType == 2 || contactType == 3
    ensures r.Some? ==> AllDigits(r.value.questionId) && Value(r.value.questionId) == 9840 + contactType
    ensures r.Some? ==> (r.value.answerId == "1" <==> hasPrescription)
    ensures r.Some? ==> (r.value.answerId == "2" <==> !hasPrescription)
  {
    QuestionIdValues();
    if contactType == 2 then
      Some(Answer(if hasPrescription then "1" else "2", "9842"))
    else if contactType == 3 then
      Some(Answer(if hasPrescription then "1" else "2", "9843"))
    else
      None
  }

  lemma QuestionIdValues()
    ensures AllDigits("9842") && Value("9842") == 9842
    ensures AllDigits("9843") && Value("9843") == 9843
  {
    assert "9842"[..3] == "984" && "9843"[..3] == "984";
    assert "984"[..2] == "98" && "98"[..1] == "9" && "9"[..0] == "";
  }

  /** `build_xml_prop`: the rendered prescription answer, or "" when there is none. */
  function BuildXmlProp(data: Contact): (r: string)
    ensures r == "" <==> !(data.contactType == 2 || data.contactType == 3)
    ensures data.contactType == 2 ==>
      r == AnswerTag(Answer(if data.hasPrescription then "1" else "2", "9842"))
    ensures data.contactType == 3 ==>
      r == AnswerTag(Answer(if data.hasPrescription then "1" else "2", "9843"))
  {
    match PrescriptionAnswer(data.contactType, data.hasPrescription)
    case Some(a) => AnswerTag(a)
    case None => ""
  }

  datatype Interaction = Interaction(
    externalId: string, sourceCode: string, vendorCode: string, channelCode: string, productCode: string)

  datatype Consumer = Consumer(
    addressLine1: string, captureDate: string, city: string, emailAddress: string,
    firstName: string, lastName: string, state: string, zipCodeBase: string)

  datatype Campaign = Campaign(campaignCode: string, promoCode: string, kitCode: string, offerCode: string)

  datatype Response = Response(responseDate: string, mediaOriginCode: string)

  /** The survey block: the fixed 9840 answer, the 9841 contact-type answer and the
      prescription fragment (possibly empty). */
  datatype Survey = Survey(surveyDate: string, fixedAnswer: Answer, contactTypeAnswer: Answer, prescription: string)

  /** The values the `build_payload` template interpolates, attribute by attribute. */
  datatype Payload = Payload(
    interaction: Interaction, consumer: Consumer, campaign: Campaign, response: Response, survey: Survey)

  /** `build_payload`, given the clock reading it takes. */
  function BuildPayload(meta: Meta, data: Contact, now: DateTime): (p: Payload)
    requires now.Valid()
    ensures p.consumer.captureDate == p.response.responseDate == p.survey.surveyDate
    ensures IsoShaped(p.survey.surveyDate) && ParseIso(p.survey.surveyDate) == now
    ensures p.survey.fixedAnswer == Answer("1", "9840")
    ensures p.survey.contactTypeAnswer == Answer(IntToString(data.contactType), "9841")
    ensures p.survey.prescription == BuildXmlProp(data)
    ensures p.interaction == Interaction(meta.externalId, meta.sourceCode, meta.vendorCode, meta.channelCode, meta.productCode)
    ensures p.campaign == Campaign(meta.campaignCode, meta.promoCode, meta.kitCode, meta.offerCode)
    ensures p.response.mediaOriginCode == meta.mediaOriginCode
    ensures p.consumer == Consumer(data.address, p.consumer.captureDate, data.city, data.email,
                                   data.firstname, data.lastname, data.state, data.zipcode)
  {
    var stamp := Iso(now);
    IsoRoundTrip(now);
    Payload(
      Interaction(meta.externalId, meta.sourceCode, meta.vendorCode, meta.channelCode, meta.productCode),
      Consumer(data.address, stamp, data.city, data.email, data.firstname, data.lastname, data.state, data.zipcode),
      Campaign(meta.campaignCode, meta.promoCode, meta.kitCode, meta.offerCode),
      Response(stamp, meta.mediaOriginCode),
      Survey(stamp, Answer("1", "9840"), Answer(IntToString(data.contactType), "9841"), BuildXmlProp(data)))
  }

  const Prolog := "<?xml version=\"1.0\" encoding=\"UTF-8\"?>\n"

  /** The document text of `payload_str`, values interpolated without escaping. */
  function Render(p: Payload): (r: string)
    ensures StartsWith(r, Prolog)
  {
    var i, c, k, s := p.interaction, p.consumer, p.campaign, p.survey;
    var body :=
      "<Interactions>\n"
    + "<Interaction ExternalID=\"" + i.externalId + "\" SourceCode=\"" + i.sourceCode
    + "\" VendorCode=\"" + i.vendorCode + "\" ChannelCode=\"" + i.channelCode
    + "\" ProductCode=\"" + i.productCode + "\">\n"
    + "<Consumer AddressLine1=\"" + c.addressLine1 + "\" CaptureDate=\"" + c.captureDate
    + "\" City=\"" + c.city + "\" EmailAddress=\"" + c.emailAddress + "\" FirstName=\"" + c.firstName
    + "\" LastName=\"" + c.lastName + "\" State=\"" + c.state + "\" ZipCodeBase=\"" + c.zipCodeBase + "\"/>\n"
    + "<Campaign CampaignCode=\"" + k.campaignCode + "\" PromoCode=\"" + k.promoCode
    + "\" KitCode=\"" + k.kitCode + "\" OfferCode=\"" + k.offerCode + "\"/>\n"
    + "<Response ResponseDate=\"" + p.response.responseDate + "\" MediaOriginCode=\""
    + p.response.mediaOriginCode + "\"/>\n"
    + "\t<Survey SurveyDate=\"" + s.surveyDate + "\">\n"
    + "\t\t\t<Answers>\n"
    + "\t\t\t\t" + AnswerTag(s.fixedAnswer) + "\n"
    + "\t\t\t\t" + AnswerTag(s.contactTypeAnswer) + "\n"
    + "\t\t\t\t" + s.prescription + "\n"
    + "\t\t\t</Answers>\n"
    + "\t\t</Survey>\n"
    + "\t</Interaction>\n"
    + "</Interactions>\n";
    assert (Prolog + body)[..|Prolog|] == Prolog;
    Prolog + body
  }

  const FilenamePrefix := "_"
  const FilenameInfix := "_CNSMR_W_"
  const FilenameSuffix := "_4.xml"

  /** `set_filename`, given the clock reading it takes:
      `_<ProductCode>_CNSMR_W_<ccyymmddhhmiss>_4.xml`. */
  function Filename(productCode: string, now: DateTime): (r: string)
    requires now.Valid()
    ensures |r| == |productCode| + 30
    ensures StartsWith(r, "_" + productCode + "_CNSMR_W_") && EndsWith(r, "_4.xml")
    ensures var stamp := r[|productCode| + 10..|productCode| + 24];
      |stamp| == 14 && AllDigits(stamp) && ParseCompact(stamp) == now
  {
    var head := FilenamePrefix + productCode + FilenameInfix;
    var r := head + Compact(now) + FilenameSuffix;
    assert r[..|head|] == head;
    assert r[|r| - 6..] == FilenameSuffix;
    assert r[|productCode| + 10..|productCode| + 24] == Compact(now);
    CompactRoundTrip(now);
    r
  }

  /** `set_credentials`' choice: the prod account for stage "prod", the test account otherwise. */
  function CredentialsFor(stage: string, env: FtpEnv): (r: (string, string))
    ensures stage == "prod" ==> r == (env.usernameProd, env.passwordProd)
    ensures stage != "prod" ==> r == (env.usernameTest, env.passwordTest)
  {
    if stage == "prod" then (env.usernameProd, env.passwordProd) else (env.usernameTest, env.passwordTest)
  }

  /** What `transfer_data` does: the file it saves (None when parsing the document
      failed), the SFTP session it opens (port 22), the transfer it attempts, and whether
      an exception propagates. */
  datatype Transfer = Transfer(
    savedPath: Option<string>, host: string, port: int, username: Option<string>, password: Option<string>,
    upload: Option<(string, string)>, propagated: bool)

  class MerkleSftp {
    const stage: string
    const meta: Meta
    const data: Contact
    var ftpUsername: Option<string>
    var ftpPassword: Option<string>
    var filename: string
    var payload: Payload

    /** The constructor runs `set_filename`, then `build_payload`, then `set_credentials`;
        each of the first two reads the clock once. */
    constructor (stage: string, meta: Meta, data: Contact, env: FtpEnv, filenameClock: DateTime, payloadClock: DateTime)
      requires filenameClock.Valid() && payloadClock.Valid()
      ensures this.stage == stage && this.meta == meta && this.data == data
      ensures filename == Filename(meta.productCode, filenameClock)
      ensures payload == BuildPayload(meta, data, payloadClock)
      ensures ftpUsername == Some(CredentialsFor(stage, env).0)
      ensures ftpPassword == Some(CredentialsFor(stage, env).1)
    {
      this.stage := stage;
      this.meta := meta;
      this.data := data;
      ftpUsername := None;
      ftpPassword := None;
      filename := Filename(meta.productCode, filenameClock);
      payload := BuildPayload(meta, data, payloadClock);
      new;
      SetCredentials(env);
    }

    method SetCredentials(env: FtpEnv)
      modifies this`ftpUsername, this`ftpPassword
      ensures ftpUsername == Some(CredentialsFor(stage, env).0)
      ensures ftpPassword == Some(CredentialsFor(stage, env).1)
    {
      if stage == "prod" {
        ftpUsername := Some(env.usernameProd);
        ftpPassword := Some(env.passwordProd);
        return;
      }
      ftpUsername := Some(env.usernameTest);
      ftpPassword := Some(env.passwordTest);
    }

    /** `transfer_data`: the document is first parsed and saved as /tmp/<filename>
        (parsing fails on a value holding an unescaped `&`, `<` or `"`); then the
        connection is made. Both steps are outside the try block, so a failure of either
        propagates and nothing is uploaded. The upload from /tmp/<filename> to
        /Inbox/<filename> runs inside it, so its failure is swallowed. */
    method TransferData(host: string, saveRaises: bool, connectRaises: bool) returns (t: Transfer)
      ensures t.savedPath == (if saveRaises then None else Some("/tmp/" + filename))
      ensures t.host == host && t.port == 22
      ensures t.username == ftpUsername && t.password == ftpPassword
      ensures t.propagated == (saveRaises || connectRaises)
      ensures t.upload.Some? <==> !saveRaises && !connectRaises
      ensures t.upload.Some? ==> Some(t.upload.value.0) == t.savedPath
      ensures t.upload.Some? ==> StartsWith(t.upload.value.1, "/Inbox/") && t.upload.value.1[7..] == filename
    {
      if saveRaises {
        return Transfer(None, host, 22, ftpUsername, ftpPassword, None, true);
      }
      var saved := "/tmp/" + filename;
      if connectRaises {
        return Transfer(Some(saved), host, 22, ftpUsername, ftpPassword, None, true);
      }
      var localpath := "/tmp/" + filename;
      var filepath := "/Inbox/" + filename;
      t := Transfer(Some(saved), host, 22, ftpUsername, ftpPassword, Some((localpath, filepath)), false);
    }
  }
}
