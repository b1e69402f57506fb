/** One account: the `GLaDOS` object, its check-in call and the status and
    points fetch that overwrite its fields, including the exchange-tier advice. */
module Account {
  import opened Wrappers
  import opened Text
  import opened Failover
  import ZenBar

  /** The `data` object of the status reply. `leftDays` is the number the
      service sends (or the decimal string it parses as). */
  datatype StatusData = StatusData(email: Option<string>, leftDays: Option<real>)

  /** The status reply; `data` is absent when the key is missing. */
  datatype StatusBody = StatusBody(data: Option<StatusData>)

  /** One entry of the points history; `change` is the Python `str()` text
      of the value the service sends. */
  datatype HistoryEntry = HistoryEntry(change: Option<string>)

  /** The points reply; a missing `history` key reads as the empty list. */
  datatype PointsBody = PointsBody(points: Option<real>, history: seq<HistoryEntry>)

  /** The check-in reply. */
  datatype CheckinBody = CheckinBody(message: Option<string>)

  /** How every mirror answers each kind of request. */
  datatype Network = Network(
    checkin: Request -> Reply<CheckinBody>,
    status: Request -> Reply<StatusBody>,
    points: Request -> Reply<PointsBody>)

  const CheckinPath := "/api/user/checkin"
  const StatusPath := "/api/user/status"
  const PointsPath := "/api/user/points"

  /** The fixed JSON body of the check-in request. */
  const CheckinJson: map<string, string> := map["token" := "glados.cloud"]

  /** What each of the three failover calls of an account yields. */
  function CheckinOutcome(net: Network, cookie: string): Option<CheckinBody> {
    Outcome(Replies(net.checkin, Attempts("POST", CheckinPath, cookie, Some(CheckinJson))))
  }

  function StatusOutcome(net: Network, cookie: string): Option<StatusBody> {
    Outcome(Replies(net.status, Attempts("GET", StatusPath, cookie, None)))
  }

  function PointsOutcome(net: Network, cookie: string): Option<PointsBody> {
    Outcome(Replies(net.points, Attempts("GET", PointsPath, cookie, None)))
  }

  /** The values of an account's fields, apart from its cookie. */
  datatype Snapshot = Snapshot(
    email: string, leftDays: int, points: int,
    pointsChange: string, lastMsg: string, exchangeAdvice: string)

  /** The fields of a freshly constructed account. */
  const Initial := Snapshot("?", 0, 0, "+0", "", "")

  /** The message recorded when the check-in gave nothing usable. */
  const NetError := "Net Error"

  /** `res.get('message', 'Net Error') if res else "Net Error"`. */
  function LastMessage(res: Option<CheckinBody>): (msg: string)
    ensures res.Some? && res.value.message.Some? ==> msg == res.value.message.value
    ensures res.None? || res.value.message.None? ==> msg == NetError
  {
    match res
    case None => NetError
    case Some(body) => body.message.GetOr(NetError)
  }

  /** A check-in that no mirror answered usably is recorded as "Net Error",
      and so is a reply without `message`. */
  lemma NetErrorWithoutUsableReply(replies: seq<Reply<CheckinBody>>)
    requires (forall j :: 0 <= j < |replies| ==> !Accepted(replies[j]))
      || (Outcome(replies).Some? && Outcome(replies).value.message.None?)
    ensures LastMessage(Outcome(replies)) == NetError
  {
  }

  /** The fields after the status reply is applied: only with a `data` object
      are the email (else "Unknown") and the truncated remaining days set. */
  function WithStatus(s: Snapshot, status: Option<StatusBody>): Snapshot {
    match status
    case Some(StatusBody(Some(data))) =>
      s.(email := data.email.GetOr("Unknown"), leftDays := Truncate(data.leftDays.GetOr(0.0)))
    case _ => s
  }

  /** The latest delta as shown: the text before the first '.', with a '+'
      put in front unless it already starts with '-'. */
  function SignedChange(change: string): (r: string)
    ensures StartsWith(r, '+') || StartsWith(r, '-')
    ensures '.' !in r
    ensures r == BeforeFirst(change, '.') <==> StartsWith(BeforeFirst(change, '.'), '-')
    ensures r == BeforeFirst(change, '.') || r == "+" + BeforeFirst(change, '.')
  {
    var head := BeforeFirst(change, '.');
    if !StartsWith(head, '-') then "+" + head else head
  }

  /** For the text of a number (an integer, possibly followed by a fraction),
      the delta is that integer with an explicit sign. */
  lemma SignedChangeOfNumber(n: int, fraction: string)
    requires fraction == [] || fraction[0] == '.'
    ensures SignedChange(IntText(n) + fraction) == (if n < 0 then "" else "+") + IntText(n)
  {
    var t := IntText(n) + fraction;
    assert '.' !in IntText(n) by {
      if n < 0 {
        assert IntText(n) == "-" + NatText(-n);
      }
    }
    BeforeFirstOfPrefix(IntText(n), fraction);
    if n >= 0 {
      assert IsDigit(NatText(n)[0]);
    }
  }

  lemma {:induction false} BeforeFirstOfPrefix(p: string, t: string)
    requires '.' !in p
    requires t == [] || t[0] == '.'
    ensures BeforeFirst(p + t, '.') == p
  {
    if p != [] {
      assert (p + t)[1..] == p[1..] + t;
      BeforeFirstOfPrefix(p[1..], t);
    } else {
      assert p + t == t;
    }
  }

  /** An exchange tier: the points it costs and the days it grants. */
  datatype Tier = Tier(points: int, days: int)

  /** The fixed tiers, in the order they are listed. */
  const Checkpoints := [Tier(100, 10), Tier(200, 30), Tier(500, 100)]

  /** Where a balance stands against a tier. */
  datatype Standing = Ready | Short(gap: int)

  /** A tier is ready exactly when the balance reaches it; otherwise the gap
      shown is what is missing, which is always positive. */
  function Assess(points: int, target: int): (st: Standing)
    ensures st.Ready? <==> points >= target
    ensures st.Short? ==> st.gap == target - points && st.gap > 0
  {
    if points >= target then Ready else Short(target - points)
  }

  const AdviceHeader := "**🎁 资产增值路径：**"
  const ReadyLabel := "<font color='#27ae60'>[就绪]</font>"
  const SavingLabel := "<font color='#999999'>[积攒]</font>"
  const RedeemableText := "可兑换"
  const ShortPrefix := "还差 "

  /** The advice line for one tier. `percent` formats the float percentage of
      the progress bar, which the model takes as given. */
  function TierLine(points: int, tier: Tier, percent: (int, int) -> string): string
    requires tier.points > 0
  {
    var standing := Assess(points, tier.points);
    "> " + ZenBar.BarText(points, tier.points, percent(points, tier.points)) + " " + Label(standing)
      + " **" + IntText(tier.days) + "天** (" + GapText(standing) + ")"
  }

  function Label(standing: Standing): string {
    if standing.Ready? then ReadyLabel else SavingLabel
  }

  function GapText(standing: Standing): string {
    match standing
    case Ready => RedeemableText
    case Short(missing) => ShortPrefix + IntText(missing)
  }

  /** The header and then one line per tier, in tier order. */
  function AdviceLines(points: int, percent: (int, int) -> string): seq<string> {
    [AdviceHeader] + seq(|Checkpoints|, i requires 0 <= i < |Checkpoints| => TierLine(points, Checkpoints[i], percent))
  }

  /** The advice block: its lines joined by newlines. */
  function AdviceText(points: int, percent: (int, int) -> string): string {
    Join(AdviceLines(points, percent), '\n')
  }

  /** The fields after the points reply is applied: only with a `points` key
      are the truncated balance, the signed latest delta (when the history
      is not empty) and the advice block set. */
  function WithPoints(s: Snapshot, pts: Option<PointsBody>, percent: (int, int) -> string): Snapshot {
    match pts
    case Some(PointsBody(Some(p), history)) =>
      var balance := Truncate(p);
      s.(points := balance,
         pointsChange := if history == [] then s.pointsChange else SignedChange(history[0].change.GetOr("0")),
         exchangeAdvice := AdviceText(balance, percent))
    case _ => s
  }

  /** The fields after `fetch_data`: the status reply, then the points reply. */
  function AfterFetch(s: Snapshot, status: Option<StatusBody>, pts: Option<PointsBody>,
                      percent: (int, int) -> string): Snapshot
  {
    WithPoints(WithStatus(s, status), pts, percent)
  }

  /** The status fields follow three cases: no `data` leaves them untouched;
      otherwise the email is the one sent or "Unknown", and the remaining days
      are the number sent (0 when absent) truncated toward zero. The points
      reply never touches them, and the status reply touches nothing else. */
  lemma StatusFields(s: Snapshot, status: Option<StatusBody>, pts: Option<PointsBody>, percent: (int, int) -> string)
    ensures var t := AfterFetch(s, status, pts, percent);
      (status.None? || status.value.data.None? ==> t.email == s.email && t.leftDays == s.leftDays)
      && (status.Some? && status.value.data.Some? ==>
            var data := status.value.data.value;
            (data.email.None? ==> t.email == "Unknown")
            && (data.email.Some? ==> t.email == data.email.value)
            && (data.leftDays.None? ==> t.leftDays == 0)
            && (data.leftDays.Some? && data.leftDays.value >= 0.0 ==>
                  t.leftDays as real <= data.leftDays.value < t.leftDays as real + 1.0)
            && (data.leftDays.Some? && data.leftDays.value < 0.0 ==>
                  t.leftDays as real - 1.0 < data.leftDays.value <= t.leftDays as real))
      && t.lastMsg == s.lastMsg
      && (pts.None? || pts.value.points.None? ==>
            t.points == s.points && t.pointsChange == s.pointsChange && t.exchangeAdvice == s.exchangeAdvice)
  {
  }

  /** With a `points` key the balance is the number sent truncated toward
      zero, the delta is the signed first history change (kept when the
      history is empty) and the advice block is rebuilt for the new balance;
      the points reply touches nothing else. */
  lemma PointsFields(s: Snapshot, status: Option<StatusBody>, pts: Option<PointsBody>, percent: (int, int) -> string)
    requires pts.Some? && pts.value.points.Some?
    ensures var t, p := AfterFetch(s, status, pts, percent), pts.value.points.value;
      (p >= 0.0 ==> t.points as real <= p < t.points as real + 1.0)
      && (p < 0.0 ==> t.points as real - 1.0 < p <= t.points as real)
      && (pts.value.history == [] ==> t.pointsChange == s.pointsChange)
      && (pts.value.history != [] ==>
            t.pointsChange == SignedChange(pts.value.history[0].change.GetOr("0")))
      && t.exchangeAdvice == AdviceText(t.points, percent)
      && t.lastMsg == s.lastMsg
  {
  }

  /** The shown delta always starts with a sign and holds no '.': the
      initial "+0" does, and every update keeps it so. */
  lemma PointsChangeIsSigned(s: Snapshot, status: Option<StatusBody>, pts: Option<PointsBody>, percent: (int, int) -> string)
    requires StartsWith(s.pointsChange, '+') || StartsWith(s.pointsChange, '-')
    requires '.' !in s.pointsChange
    ensures var c := AfterFetch(s, status, pts, percent).pointsChange;
      (StartsWith(c, '+') || StartsWith(c, '-')) && '.' !in c
  {
  }

  /** No line of the advice block holds a newline, given that the percentage
      text holds none. */
  lemma AdviceLinesSingle(points: int, percent: (int, int) -> string)
    requires forall a, b :: '\n' !in percent(a, b)
    ensures forall line <- AdviceLines(points, percent) :: '\n' !in line
  {
    assert '\n' !in AdviceHeader;
    forall i | 0 <= i < |Checkpoints|
      ensures '\n' !in TierLine(points, Checkpoints[i], percent)
    {
      TierLineSingle(points, Checkpoints[i], percent);
    }
  }

  lemma TierLineSingle(points: int, tier: Tier, percent: (int, int) -> string)
    requires tier.points > 0
    requires '\n' !in percent(points, tier.points)
    ensures '\n' !in TierLine(points, tier, percent)
  {
    var standing := Assess(points, tier.points);
    ZenBar.BarTextSingle(points, tier.points, percent(points, tier.points));
    NoNewlineInNumber(tier.days);
    LabelsSingle();
    if standing.Short? {
      NoNewlineInNumber(standing.gap);
    }
  }

  /** The fixed pieces of a tier line hold no line break. */
  lemma LabelsSingle()
    ensures '\n' !in ReadyLabel && '\n' !in SavingLabel
    ensures '\n' !in RedeemableText && '\n' !in ShortPrefix
    ensures '\n' !in " **" && '\n' !in "天** ("
  {
  }

  lemma NoNewlineInNumber(n: int)
    ensures '\n' !in IntText(n)
  {
    if n < 0 {
      assert IntText(n) == "-" + NatText(-n);
    }
  }

  /** The advice block reads back as its header followed by exactly one line
      per tier, in the order (100, 10), (200, 30), (500, 100). */
  lemma AdviceBlockLines(points: int, percent: (int, int) -> string)
    requires forall a, b :: '\n' !in percent(a, b)
    ensures var lines := Split(AdviceText(points, percent), '\n');
      |lines| == 1 + |Checkpoints| && lines[0] == AdviceHeader
      && forall i :: 0 <= i < |Checkpoints| ==> lines[i + 1] == TierLine(points, Checkpoints[i], percent)
  {
    AdviceLinesSingle(points, percent);
    SplitJoin(AdviceLines(points, percent), '\n');
  }

  /** The advice block is set exactly when the points reply carries `points`
      (starting, as every account does, from an empty block). */
  lemma AdviceOnlyWithPoints(s: Snapshot, status: Option<StatusBody>, pts: Option<PointsBody>, percent: (int, int) -> string)
    requires s.exchangeAdvice == ""
    ensures AfterFetch(s, status, pts, percent).exchangeAdvice != "" <==> pts.Some? && pts.value.points.Some?
  {
    if pts.Some? && pts.value.points.Some? {
      var lines := AdviceLines(Truncate(pts.value.points.value), percent);
      assert |lines| > 1 && lines[0] == AdviceHeader;
      assert |Join(lines, '\n')| > 0;
    }
  }

  /** The worked example: 9.7 remaining days, 150 points, latest delta -5. */
  lemma WorkedExample(percent: (int, int) -> string)
    ensures var t := AfterFetch(Initial,
        Some(StatusBody(Some(StatusData(Some("a@b.c"), Some(9.7))))),
        Some(PointsBody(Some(150.0), [HistoryEntry(Some("-5"))])), percent);
      t.email == "a@b.c" && t.leftDays == 9 && t.points == 150 && t.pointsChange == "-5"
    ensures Assess(150, Checkpoints[0].points) == Ready
    ensures Assess(150, Checkpoints[1].points) == Short(50)
    ensures Assess(150, Checkpoints[2].points) == Short(350)
  {
    assert BeforeFirst("-5", '.') == "-5" by {
      assert BeforeFirst("5", '.') == "5";
    }
  }

  /** The advice loop of `fetch_data`: the header, then for each tier its
      bar, its ready or saving label, its days and the remaining gap. */
  method BuildAdvice(points: int, percent: (int, int) -> string) returns (text: string)
    ensures text == AdviceText(points, percent)
  {
    var lines := [AdviceHeader];
    for i := 0 to |Checkpoints|
      invariant lines == AdviceLines(points, percent)[..i + 1]
    {
      var tier := Checkpoints[i];
      var bar := ZenBar.BarText(points, tier.points, percent(points, tier.points));
      var tag, gap;
      if points >= tier.points {
        tag, gap := ReadyLabel, RedeemableText;
      } else {
        tag, gap := SavingLabel, ShortPrefix + IntText(tier.points - points);
      }
      var line := "> " + bar + " " + tag + " **" + IntText(tier.days) + "天** (" + gap + ")";
      assert line == TierLine(points, tier, percent);
      TakeOneMore(AdviceLines(points, percent), i + 1);
      lines := lines + [line];
    }
    assert lines == AdviceLines(points, percent);
    text := Join(lines, '\n');
  }

  /** The per-account object of the script. `fetch_data` overwrites its
      fields step by step; `View` gives their current values. */
  class GLaDOS {
    const cookie: string
    var email: string
    var leftDays: int
    var points: int
    var pointsChange: string
    var lastMsg: string
    var exchangeAdvice: string

    function View(): Snapshot
      reads this
    {
      Snapshot(email, leftDays, points, pointsChange, lastMsg, exchangeAdvice)
    }

    constructor (cookie: string)
      ensures this.cookie == cookie && View() == Initial
    {
      this.cookie := cookie;
      email, leftDays, points := "?", 0, 0;
      pointsChange, lastMsg, exchangeAdvice := "+0", "", "";
    }

    /** Try the mirrors in order with this account's cookie and return the
        body of the first usable reply. `sent` records the requests made:
        those up to and including the first usable reply, or all of them. */
    method Req<T>(verb: string, path: string, json: Option<map<string, string>>, net: Request -> Reply<T>)
      returns (r: Option<T>, ghost sent: seq<Request>)
      ensures r == Outcome(Replies(net, Attempts(verb, path, cookie, json)))
      ensures var attempts := Attempts(verb, path, cookie, json);
        |sent| <= |attempts| && sent == attempts[..|sent|]
        && |sent| == if r.None? then |Domains| else FirstAccepted(Replies(net, attempts)) + 1
    {
      ghost var attempts := Attempts(verb, path, cookie, json);
      ghost var replies := Replies(net, attempts);
      sent := [];
      for i := 0 to |Domains|
        invariant sent == attempts[..i]
        invariant forall j :: 0 <= j < i ==> !Accepted(replies[j])
      {
        var request := Request(verb, Domains[i] + path, cookie, json);
        var reply := net(request);
        sent := sent + [request];
        if reply.Answered? && reply.code == 200 && reply.body.Some? {
          assert Accepted(replies[i]);
          return Some(reply.body.value), sent;
        }
      }
      assert attempts[..|Domains|] == attempts;
      return None, sent;
    }

    /** The check-in call: a POST of the fixed token, through the mirrors. */
    method Checkin(net: Network) returns (r: Option<CheckinBody>)
      ensures r == CheckinOutcome(net, cookie)
    {
      ghost var sent;
      r, sent := Req("POST", CheckinPath, Some(CheckinJson), net.checkin);
    }

    /** `fetch_data`: the status call, then the points call, each applied to
        the fields as `AfterFetch` describes. */
    method FetchData(net: Network, percent: (int, int) -> string)
      modifies this
      ensures View() == AfterFetch(old(View()), StatusOutcome(net, cookie), PointsOutcome(net, cookie), percent)
    {
      ghost var sent;
      ghost var before := View();
      var status;
      status, sent := Req("GET", StatusPath, None, net.status);
      if status.Some? && status.value.data.Some? {
        var data := status.value.data.value;
        email := data.email.GetOr("Unknown");
        leftDays := Truncate(data.leftDays.GetOr(0.0));
      }
      assert View() == WithStatus(before, status);
      ghost var afterStatus := View();
      var pts;
      pts, sent := Req("GET", PointsPath, None, net.points);
      if pts.Some? && pts.value.points.Some? {
        points := Truncate(pts.value.points.value);
        var history := pts.value.history;
        if history != [] {
          var change := BeforeFirst(history[0].change.GetOr("0"), '.');
          pointsChange := if !StartsWith(change, '-') then "+" + change else change;
        }
        exchangeAdvice := BuildAdvice(points, percent);
      }
    }
  }
}
