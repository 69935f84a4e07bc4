/** The AWS Simple Email Service wrapper: stage-dependent recipient and subject,
    and the shape of the one `send_email` call. */
module SimpleEmail {
  import opened Base

  /** The environment values the wrapper reads. */
  datatype SesEnv = SesEnv(
    receiverDev: string, receiverStaging: string, receiverProd: string,
    subjectTest: string, subjectProd: string, fromName: string, sender: string)

  /** Recipient and subject after `set_email_meta(stage)`, from the current ones:
      "v1" selects production, "stage" selects staging, anything else keeps the current pair. */
  function MetaFor(stage: string, env: SesEnv, current: (string, string)): (r: (string, string))
    ensures stage == "v1" ==> r == (env.receiverProd, env.subjectProd)
    ensures stage == "stage" ==> r == (env.receiverStaging, env.subjectTest)
    ensures stage != "v1" && stage != "stage" ==> r == current
  {
    if stage == "v1" then (env.receiverProd, env.subjectProd)
    else if stage == "stage" then (env.receiverStaging, env.subjectTest)
    else current
  }

  /** The pair after `set_email_meta` has been called with each stage in turn. */
  function AfterStages(stages: seq<string>, env: SesEnv, start: (string, string)): (string, string)
  {
    if stages == [] then start else MetaFor(stages[|stages| - 1], env, AfterStages(stages[..|stages| - 1], env, start))
  }

  /** The last stage that `set_email_meta` recognises, if any. */
  function LastRecognised(stages: seq<string>): (r: Option<string>)
    ensures r.Some? ==> r.value == "v1" || r.value == "stage"
  {
    if stages == [] then None
    else if stages[|stages| - 1] == "v1" || stages[|stages| - 1] == "stage" then Some(stages[|stages| - 1])
    else LastRecognised(stages[..|stages| - 1])
  }

  /** Only the last recognised stage matters: earlier calls are overwritten and
      unrecognised stages change nothing. */
  lemma {:induction false} LastRecognisedStageWins(stages: seq<string>, env: SesEnv, start: (string, string))
    ensures LastRecognised(stages).None? ==> AfterStages(stages, env, start) == start
    ensures LastRecognised(stages).Some? ==>
      AfterStages(stages, env, start) == MetaFor(LastRecognised(stages).value, env, start)
  {
    if stages != [] {
      LastRecognisedStageWins(stages[..|stages| - 1], env, start);
    }
  }

  /** Calling `set_email_meta` twice with the same stage is the same as calling it once. */
  lemma MetaIdempotent(stage: string, env: SesEnv, current: (string, string))
    ensures MetaFor(stage, env, MetaFor(stage, env, current)) == MetaFor(stage, env, current)
  {
  }

  /** The `send_email` request, as the SES client receives it. */
  datatype EmailRequest = EmailRequest(
    clientRegion: string, toAddresses: seq<string>, htmlCharset: string, htmlData: string,
    subjectCharset: string, subjectData: string, source: string)

  /** The `Source` header: `<from_name> <<sender>>`. */
  function SourceHeader(fromName: string, sender: string): (r: string)
    ensures |r| == |fromName| + |sender| + 3
    ensures StartsWith(r, fromName) && EndsWith(r, ">")
    ensures r[|fromName|..|fromName| + 2] == " <" && r[|fromName| + 2..|r| - 1] == sender
  {
    var r := fromName + " <" + sender + ">";
    assert r[..|fromName|] == fromName;
    assert r[|fromName| + 2..|r| - 1] == sender;
    r
  }

  class SimpleEmailService {
    var regionName: string
    var charset: string
    /** The region the SES client was created with; `set_region` does not rebuild it. */
    const clientRegion: string
    var receiver: string
    var emailSubject: string
    const emailFromName: string
    const sender: string

    constructor (env: SesEnv)
      ensures regionName == "us-east-1" && clientRegion == "us-east-1" && charset == "UTF-8"
      ensures receiver == env.receiverDev && emailSubject == env.subjectTest
      ensures emailFromName == env.fromName && sender == env.sender
    {
      regionName := "us-east-1";
      charset := "UTF-8";
      clientRegion := "us-east-1";
      receiver := env.receiverDev;
      emailSubject := env.subjectTest;
      emailFromName := env.fromName;
      sender := env.sender;
    }

    method SetRegion(regionName: string)
      modifies this`regionName
      ensures this.regionName == regionName
    {
      this.regionName := regionName;
    }

    method SetCharset(charset: string)
      modifies this`charset
      ensures this.charset == charset
    {
      this.charset := charset;
    }

    method SetEmailMeta(stage: string, env: SesEnv)
      modifies this`receiver, this`emailSubject
      ensures (receiver, emailSubject) == MetaFor(stage, env, old((receiver, emailSubject)))
    {
      if stage == "v1" {
        receiver := env.receiverProd;
        emailSubject := env.subjectProd;
      }
      if stage == "stage" {
        receiver := env.receiverStaging;
        emailSubject := env.subjectTest;
      }
    }

    /** `send_email`: one SES call; False if it raised, True otherwise. */
    method SendEmail(messageBody: string, raised: bool) returns (ok: bool, request: EmailRequest)
      ensures ok == !raised
      ensures request.clientRegion == clientRegion
      ensures request.toAddresses == [receiver]
      ensures request.htmlCharset == charset && request.subjectCharset == charset
      ensures request.htmlData == messageBody && request.subjectData == emailSubject
      ensures request.source == SourceHeader(emailFromName, sender)
    {
      request := EmailRequest(clientRegion, [receiver], charset, messageBody, charset, emailSubject,
                              SourceHeader(emailFromName, sender));
      if raised {
        return false, request;
      }
      ok := true;
    }
  }
}
