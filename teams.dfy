/** Microsoft Teams incoming-webhook notifications: the "MessageCard" built from a
    failure record, and the result of posting it. */
module Teams {
  import opened Base

  datatype Fact = Fact(name: string, value: Json)
  datatype Section = Section(
    activityTitle: Json, activitySubtitle: Json, activityImage: string, facts: seq<Fact>, markdown: bool)
  datatype Target = Target(os: string, uri: Json)
  datatype Action = Action(kind: string, name: string, targets: seq<Target>)

  /** A MessageCard; `kind` is its `@type`. */
  datatype MessageCard = MessageCard(kind: string, summary: string, sections: seq<Section>, potentialAction: seq<Action>)

  /** The keys `build_payload` reads from the failure record. */
  const RequiredKeys: set<string> := {"lambda_name", "function_name", "location", "status", "description", "logs_link"}

  const ActivityImage := "https://c8.alamy.com/comp/E59H30/falling-man-isolated-on-white-background-E59H30.jpg"

  predicate HasRequiredKeys(data: map<string, Json>)
  {
    RequiredKeys <= data.Keys
  }

  /** The card for a failure record, or None when a key is missing (the KeyError case). */
  function Card(data: map<string, Json>): (r: Option<MessageCard>)
    ensures r.Some? <==> HasRequiredKeys(data)
    ensures r.Some? ==> r.value.kind == "MessageCard" && r.value.summary == "Lambda Failure!!!"
    ensures r.Some? ==> (
      && |r.value.sections| == 1
      && r.value.sections[0].activityTitle == data["lambda_name"]
      && r.value.sections[0].activitySubtitle == data["function_name"]
      && r.value.sections[0].activityImage == ActivityImage
      && r.value.sections[0].markdown)
    ensures r.Some? ==> (r.value.sections[0].facts ==
      [Fact("Location", data["location"]), Fact("Status", data["status"]), Fact("Description", data["description"])])
    ensures r.Some? ==> (r.value.potentialAction ==
      [Action("OpenUri", "View Logs", [Target("default", data["logs_link"])])])
  {
    if "lambda_name" in data && "function_name" in data && "location" in data
       && "status" in data && "description" in data && "logs_link" in data then
      Some(MessageCard(
        "MessageCard",
        "Lambda Failure!!!",
        [Section(data["lambda_name"], data["function_name"], ActivityImage,
                 [Fact("Location", data["location"]), Fact("Status", data["status"]),
                  Fact("Description", data["description"])],
                 true)],
        [Action("OpenUri", "View Logs", [Target("default", data["logs_link"])])]))
    else
      None
  }

  /** The POST `send_webhook_message_to_channel` makes; `json` is None when no card was built. */
  datatype WebhookPost = WebhookPost(url: string, headers: map<string, string>, json: Option<MessageCard>)

  class MsTeams {
    var payload: Option<MessageCard>

    constructor ()
      ensures payload == None
    {
      payload := None;
    }

    /** `build_payload`: all or nothing; the stored card is replaced only when every
        required key is present. */
    method BuildPayload(data: map<string, Json>) returns (ok: bool)
      modifies this`payload
      ensures ok <==> HasRequiredKeys(data)
      ensures ok ==> payload == Card(data)
      ensures !ok ==> payload == old(payload)
    {
      var card := Card(data);
      if card.None? {
        return false;
      }
      payload := card;
      return true;
    }

    /** `send_webhook_message_to_channel`: posts the stored card; False if the post
        raised or the response is not ok, True otherwise. */
    method SendWebhookMessageToChannel(webhookUrl: string, reply: Reply) returns (ok: bool, post: WebhookPost)
      ensures post == WebhookPost(webhookUrl, map["Content-type" := "application/json"], payload)
      ensures ok <==> Succeeded(reply)
    {
      post := WebhookPost(webhookUrl, map["Content-type" := "application/json"], payload);
      if reply.Raised? {
        return false, post;
      }
      if !StatusOk(reply.status) {
        return false, post;
      }
      ok := true;
    }
  }
}
