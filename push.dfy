/** The notification requests: a DingTalk robot webhook, optionally signed,
    and a Server酱 send key. Only the request each channel would send is
    modelled; sending it and reading the reply are not. */
module Push {
  import opened Wrappers

  /** One outgoing notification. A DingTalk post carries the JSON object
      `{"msgtype": "markdown", "markdown": {"title": title, "text": text}}`;
      a Server酱 post carries the form fields `title` and `desp`. */
  datatype Post =
    | DingTalkPost(url: string, title: string, text: string)
    | ServerChanPost(url: string, title: string, desp: string)

  /** The DingTalk request: nothing without a webhook; the webhook itself
      without a secret; with a secret, the millisecond timestamp and the
      signature of "<timestamp>\n<secret>" keyed by the secret appended as
      query parameters. `sign(key, message)` stands for HMAC-SHA256, then
      base64, then `quote_plus`, which the model does not compute. */
  function DingTalk(webhook: string, secret: string, timestamp: string, title: string, content: string,
                    sign: (string, string) -> string): (p: Option<Post>)
    ensures p.None? <==> webhook == ""
    ensures p.Some? ==> p.value.DingTalkPost? && p.value.title == title && p.value.text == content
    ensures p.Some? && secret == "" ==> p.value.url == webhook
    ensures p.Some? && secret != "" ==>
      p.value.url == webhook + "&timestamp=" + timestamp + "&sign=" + sign(secret, timestamp + "\n" + secret)
  {
    if webhook == "" then None
    else
      var url := if secret != "" then webhook + "&timestamp=" + timestamp + "&sign=" + sign(secret, timestamp + "\n" + secret)
                 else webhook;
      Some(DingTalkPost(url, title, content))
  }

  /** The Server酱 request: nothing without a send key, else a post to the
      URL built from the key. */
  function ServerChan(sendKey: string, title: string, content: string): (p: Option<Post>)
    ensures p.None? <==> sendKey == ""
    ensures p.Some? ==> p.value == ServerChanPost("https://sctapi.ftqq.com/" + sendKey + ".send", title, content)
  {
    if sendKey == "" then None
    else Some(ServerChanPost("https://sctapi.ftqq.com/" + sendKey + ".send", title, content))
  }

  /** The webhook is always a prefix of the DingTalk URL, and a signed URL
      differs from an unsigned one only by the two query parameters. */
  lemma SignedUrlExtendsWebhook(webhook: string, secret: string, timestamp: string, title: string, content: string,
                                sign: (string, string) -> string)
    requires webhook != ""
    ensures var p := DingTalk(webhook, secret, timestamp, title, content, sign);
      p.Some? && |webhook| <= |p.value.url| && p.value.url[..|webhook|] == webhook
      && (p.value.url == webhook <==> secret == "")
  {
  }
}
