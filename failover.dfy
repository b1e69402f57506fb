/** The mirror-failover request layer: every call to the service walks the
    fixed list of mirror domains in order and keeps the first usable reply. */
module Failover {
  import opened Wrappers

  /** The mirror base URLs, in the order they are tried. */
  const Domains: seq<string> := ["https://glados.cloud", "https://glados.rocks", "https://glados.network"]

  /** One HTTP request as the client issues it: the verb, the full URL, the
      account's cookie header and an optional JSON object of string fields. */
  datatype Request = Request(verb: string, url: string, cookie: string, json: Option<map<string, string>>)

  /** What one mirror does with a request. `Raised` is any exception out of the
      HTTP call (connection error, timeout); `Answered` carries the status code
      and the decoded JSON body, or `None` when the body does not parse. */
  datatype Reply<T> = Raised | Answered(code: int, body: Option<T>)

  /** A reply the client keeps: status 200 with a body that parses. */
  predicate Accepted<T>(reply: Reply<T>) {
    reply.Answered? && reply.code == 200 && reply.body.Some?
  }

  /** The request sent to each mirror, in mirror order. */
  function Attempts(verb: string, path: string, cookie: string, json: Option<map<string, string>>): seq<Request> {
    seq(|Domains|, i requires 0 <= i < |Domains| => Request(verb, Domains[i] + path, cookie, json))
  }

  /** The replies the network gives to a sequence of requests. */
  function Replies<T>(net: Request -> Reply<T>, requests: seq<Request>): seq<Reply<T>> {
    seq(|requests|, i requires 0 <= i < |requests| => net(requests[i]))
  }

  /** The position of the first accepted reply, or `|replies|` when none is. */
  function FirstAccepted<T>(replies: seq<Reply<T>>): (k: nat)
    ensures k <= |replies|
    ensures forall j :: 0 <= j < k ==> !Accepted(replies[j])
    ensures k < |replies| ==> Accepted(replies[k])
  {
    if replies == [] then 0
    else if Accepted(replies[0]) then 0
    else 1 + FirstAccepted(replies[1..])
  }

  /** What a failover call yields for the replies of the mirrors in order:
      the body of the first accepted reply, or `None` when every mirror
      raised, answered with another status or sent a body that does not parse. */
  function Outcome<T>(replies: seq<Reply<T>>): (r: Option<T>)
    ensures r.None? <==> forall j :: 0 <= j < |replies| ==> !Accepted(replies[j])
    ensures r.Some? ==> exists k :: (0 <= k < |replies| && Accepted(replies[k])
      && r.value == replies[k].body.value
      && forall j :: 0 <= j < k ==> !Accepted(replies[j]))
  {
    var k := FirstAccepted(replies);
    if k < |replies| then Some(replies[k].body.value) else None
  }

  /** Only the first accepted reply matters: whatever the later mirrors would
      have answered, the outcome is the same. */
  lemma {:induction false} LaterMirrorsIrrelevant<T>(replies: seq<Reply<T>>, others: seq<Reply<T>>, k: nat)
    requires k < |replies| && Accepted(replies[k])
    requires |others| >= k + 1 && others[..k + 1] == replies[..k + 1]
    ensures Outcome(others) == Outcome(replies)
    ensures FirstAccepted(others) == FirstAccepted(replies) <= k
  {
    forall j | 0 <= j <= k ensures others[j] == replies[j] {
      assert others[j] == others[..k + 1][j] == replies[..k + 1][j] == replies[j];
    }
  }
}
