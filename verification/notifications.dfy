/** The security alert sent when a file is found infected: the message built
    from the payload, and its dispatch to the configured webhook URLs. The URLs
    (environment variables) and the outcome of each POST are parameters. */
module Notifications {
  import opened Wrappers
  import opened Text

  datatype Severity = High | Medium | Low

  function SeverityName(s: Severity): (name: string)
    ensures IsLowerCase(name)
  {
    match s
    case High => "high"
    case Medium => "medium"
    case Low => "low"
  }

  datatype Payload = Payload(
    filename: string,
    fileId: string,
    detectedThreats: seq<string>,
    timestamp: string,
    severity: Severity)

  datatype Field = Field(title: string, value: string, short: bool)
  datatype Attachment = Attachment(color: string, fields: seq<Field>, footer: string)
  datatype AlertMessage = AlertMessage(text: string, attachments: seq<Attachment>)

  const AlertText: string := "\U{1F6A8} **SECURITY ALERT: Malicious File Detected**"
  const HighColor: string := "#ff0000"
  const OtherColor: string := "#ffa500"
  const Footer: string := "CyberXplore Security Scanner"

  /** The value of the first field with the given title, if there is one. */
  function Lookup(fields: seq<Field>, title: string): Option<string>
  {
    if fields == [] then None
    else if fields[0].title == title then Some(fields[0].value)
    else Lookup(fields[1..], title)
  }

  /** Lookup returns the value of the first field carrying the title. */
  lemma {:induction false} LookupFindsFirst(fields: seq<Field>, title: string, i: nat)
    requires i < |fields| && fields[i].title == title
    requires forall j :: 0 <= j < i ==> fields[j].title != title
    ensures Lookup(fields, title) == Some(fields[i].value)
  {
    if i > 0 {
      LookupFindsFirst(fields[1..], title, i - 1);
    }
  }

  /** The value a reader of the message finds under a title of its (single) attachment. */
  function FieldValue(m: AlertMessage, title: string): Option<string>
  {
    if m.attachments == [] then None else Lookup(m.attachments[0].fields, title)
  }

  /** The alert message built from the payload. */
  function BuildAlert(p: Payload): (m: AlertMessage)
    ensures m.text == AlertText && |m.attachments| == 1
    ensures m.attachments[0].footer == Footer
    ensures m.attachments[0].color == HighColor <==> p.severity == High
    ensures m.attachments[0].color == OtherColor <==> p.severity != High
    ensures FieldValue(m, "File Name") == Some(p.filename)
    ensures FieldValue(m, "File ID") == Some(p.fileId)
    ensures FieldValue(m, "Detected Threats") == Some(JoinList(p.detectedThreats))
    ensures FieldValue(m, "Severity") == Some(Upper(SeverityName(p.severity)))
    ensures FieldValue(m, "Timestamp") == Some(p.timestamp)
  {
    var fields := [
      Field("File Name", p.filename, true),
      Field("File ID", p.fileId, true),
      Field("Detected Threats", JoinList(p.detectedThreats), false),
      Field("Severity", Upper(SeverityName(p.severity)), true),
      Field("Timestamp", p.timestamp, true)];
    LookupFindsFirst(fields, "File Name", 0);
    LookupFindsFirst(fields, "File ID", 1);
    LookupFindsFirst(fields, "Detected Threats", 2);
    LookupFindsFirst(fields, "Severity", 3);
    LookupFindsFirst(fields, "Timestamp", 4);
    AlertMessage(AlertText, [
      Attachment(if p.severity == High then HighColor else OtherColor, fields, Footer)])
  }

  /** The Severity field reads back, case aside, as the payload's severity. */
  lemma SeverityFieldReadsBack(p: Payload)
    ensures Lower(FieldValue(BuildAlert(p), "Severity").value) == SeverityName(p.severity)
  {
    LowerUndoesUpper(SeverityName(p.severity));
  }

  /** The Detected Threats field splits back into the payload's threat list,
      provided the list is not empty and no threat holds a comma. */
  lemma ThreatsFieldReadsBack(p: Payload)
    requires p.detectedThreats != []
    requires forall i :: 0 <= i < |p.detectedThreats| ==> ',' !in p.detectedThreats[i]
    ensures SplitList(FieldValue(BuildAlert(p), "Detected Threats").value) == p.detectedThreats
  {
    SplitUndoesJoin(p.detectedThreats);
  }

  /** Where the alert goes: the two optional webhook URLs and whether each POST rejects. */
  datatype Delivery = Delivery(
    webhookUrl: Option<string>,
    slackUrl: Option<string>,
    webhookPostFails: bool,
    slackPostFails: bool)

  /** An attempted POST of a message to a URL. */
  datatype Post = Post(url: string, body: AlertMessage)

  /** What one dispatch did: the POSTs it attempted in order, whether it only
      logged the alert, and whether it caught and logged an error. */
  datatype Dispatch = Dispatch(posts: seq<Post>, loggedOnly: bool, errorLogged: bool)

  /** An environment variable counts as configured when it is set and not empty. */
  predicate Configured(url: Option<string>)
  {
    url.Some? && url.value != ""
  }

  /** JavaScript truthiness of an environment variable: an unset or empty
      variable is falsy, any other text is truthy. */
  lemma ConfiguredIsTruthy(url: Option<string>)
    ensures url == None || url == Some("") ==> !Configured(url)
    ensures url.Some? && |url.value| > 0 ==> Configured(url)
  {
  }

  function Urls(posts: seq<Post>): seq<string>
  {
    seq(|posts|, i requires 0 <= i < |posts| => posts[i].url)
  }

  /** What a dispatch of the alert for `p` under `env` does: every POST carries
      the same message; the generic webhook is posted first and then Slack, each
      when configured; a rejected POST to the generic webhook ends the shared try
      block, so Slack is then skipped; with neither URL configured the alert is
      only logged; every error is caught and logged. */
  predicate Delivered(d: Dispatch, p: Payload, env: Delivery)
  {
    && (forall i :: 0 <= i < |d.posts| ==> d.posts[i].body == BuildAlert(p))
    && Urls(d.posts) ==
         (if Configured(env.webhookUrl) then [env.webhookUrl.value] else [])
         + (if Configured(env.slackUrl) && !(Configured(env.webhookUrl) && env.webhookPostFails)
            then [env.slackUrl.value] else [])
    && (d.loggedOnly <==> !Configured(env.webhookUrl) && !Configured(env.slackUrl))
    && (d.errorLogged <==>
          || (Configured(env.webhookUrl) && env.webhookPostFails)
          || (Configured(env.slackUrl) && env.slackPostFails
              && !(Configured(env.webhookUrl) && env.webhookPostFails)))
  }

  /** The description leaves nothing open: two dispatches that both meet it are equal. */
  lemma DeliveredIsDetermined(d1: Dispatch, d2: Dispatch, p: Payload, env: Delivery)
    requires Delivered(d1, p, env) && Delivered(d2, p, env)
    ensures d1 == d2
  {
    assert |d1.posts| == |Urls(d1.posts)| == |Urls(d2.posts)| == |d2.posts|;
    forall i | 0 <= i < |d1.posts|
      ensures d1.posts[i] == d2.posts[i]
    {
      assert Urls(d1.posts)[i] == Urls(d2.posts)[i];
    }
  }

  /** `sendInfectedFileAlert`. */
  method SendInfectedFileAlert(p: Payload, env: Delivery) returns (d: Dispatch)
    ensures Delivered(d, p, env)
  {
    var message := BuildAlert(p);
    var posts: seq<Post> := [];
    var failed := false;
    if Configured(env.webhookUrl) {
      posts := posts + [Post(env.webhookUrl.value, message)];
      failed := env.webhookPostFails;
    }
    if !failed && Configured(env.slackUrl) {
      posts := posts + [Post(env.slackUrl.value, message)];
      failed := env.slackPostFails;
    }
    var loggedOnly := !failed && !Configured(env.webhookUrl) && !Configured(env.slackUrl);
    d := Dispatch(posts, loggedOnly, failed);
  }
}
