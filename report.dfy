/** The run itself: split the cookie setting into accounts, process each
    account in turn, render the Markdown briefing and hand it to the
    notification channels. */
module Report {
  import opened Wrappers
  import opened Text
  import opened Account
  import Push

  /** The settings the run reads; an unset setting is the empty string. */
  datatype Config = Config(rawCookie: string, webhook: string, secret: string, sendKey: string)

  /** What the run takes from the clock and from the decorative news block:
      the Beijing hour, the expiry date printed for a number of remaining
      days, the time of day for the footer, the millisecond timestamp of the
      DingTalk signature, and the news block text. */
  datatype Context = Context(hour: int, expireDate: int -> string, clockText: string, millis: string, daily: string)

  /** `[c.strip() for c in raw.split('\n') if c.strip()]`. */
  function Cookies(raw: string): (cs: seq<string>)
    ensures forall c <- cs :: Clean(c)
  {
    StrippedPieces(Split(raw, '\n'))
  }

  /** The stripped pieces that are not empty, in their order. */
  function StrippedPieces(pieces: seq<string>): (cs: seq<string>)
    ensures |cs| <= |pieces|
    ensures forall c <- cs :: Clean(c)
  {
    if pieces == [] then []
    else
      var t := Strip(pieces[0]);
      var rest := StrippedPieces(pieces[1..]);
      StripIsClean(pieces[0]);
      if t == [] then rest else [t] + rest
  }

  lemma StripIsClean(s: string)
    ensures Strip(s) == [] || Clean(Strip(s))
  {
    StripHasNoOuterSpace(s);
  }

  /** A usable cookie: not empty, and neither starts nor ends with whitespace. */
  predicate Clean(c: string) {
    c != [] && !IsSpace(c[0]) && !IsSpace(c[|c| - 1])
  }

  /** Every cookie is non-empty and stripped, and holds no line break. */
  lemma CookiesAreClean(raw: string)
    ensures forall c <- Cookies(raw) :: Clean(c) && Strip(c) == c && '\n' !in c
  {
    SplitPiecesLackSeparator(raw, '\n');
    PiecesKeepNoNewline(Split(raw, '\n'));
    forall c <- Cookies(raw) ensures Strip(c) == c {
      StripOfClean(c);
    }
  }

  lemma {:induction false} PiecesKeepNoNewline(pieces: seq<string>)
    requires forall p <- pieces :: '\n' !in p
    ensures forall c <- StrippedPieces(pieces) :: '\n' !in c
  {
    if pieces != [] {
      PiecesKeepNoNewline(pieces[1..]);
      StripKeepsOut(pieces[0], '\n');
    }
  }

  /** Stripping adds no character. */
  lemma StripKeepsOut(s: string, x: char)
    requires x !in s
    ensures x !in Strip(s)
  {
    var l := TrimLeft(s);
    var r := TrimRight(l);
    forall k | 0 <= k < |r|
      ensures r[k] != x
    {
      assert r[k] == l[k] == s[|s| - |l| + k];
    }
  }

  lemma StripOfClean(c: string)
    requires Clean(c)
    ensures Strip(c) == c
  {
  }

  /** Cookies that are already clean and one per line come back unchanged,
      in the same order: the split loses and reorders nothing. */
  lemma CookiesRoundTrip(cs: seq<string>)
    requires forall c <- cs :: Clean(c) && '\n' !in c
    ensures Cookies(Join(cs, '\n')) == cs
  {
    if cs == [] {
      assert Split([], '\n') == [[]];
    } else {
      SplitJoin(cs, '\n');
      CleanPiecesUnchanged(cs);
    }
  }

  lemma {:induction false} CleanPiecesUnchanged(cs: seq<string>)
    requires forall c <- cs :: Clean(c)
    ensures StrippedPieces(cs) == cs
  {
    if cs != [] {
      StripOfClean(cs[0]);
      assert forall c <- cs[1..] :: c in cs;
      CleanPiecesUnchanged(cs[1..]);
      assert StrippedPieces(cs) == [cs[0]] + StrippedPieces(cs[1..]);
      HeadTail(cs);
    }
  }

  /** The masked email: the first three and the last two characters of the
      part before the first '@', stars between, then '@' and the part
      between the first and a second '@'. Without '@' the script raises. */
  function MaskEmail(email: string): (m: string)
    requires '@' in email
    ensures '@' in m
  {
    var parts := Split(email, '@');
    Prefix(parts[0], 3) + "***" + Suffix(parts[0], 2) + "@" + parts[1]
  }

  /** What the mask shows of `local@rest`: at most three leading and two
      trailing characters of `local`, and `rest` up to any further '@'. */
  lemma MaskShape(local: string, rest: string)
    requires '@' !in local
    ensures MaskEmail(local + "@" + rest)
      == Prefix(local, 3) + "***" + Suffix(local, 2) + "@" + BeforeFirst(rest, '@')
  {
    var tail := "@" + rest;
    assert local + "@" + rest == local + tail;
    SplitOfPiece(local, tail, '@');
    assert tail[1..] == rest;
    var st := Split(tail, '@');
    assert st == [[]] + Split(rest, '@');
    BeforeFirstIsFirstPiece(rest, '@');
    assert local + st[0] == local;
  }

  /** With exactly one '@' the domain is kept verbatim. */
  lemma MaskKeepsDomain(local: string, domain: string)
    requires '@' !in local && '@' !in domain
    ensures var m := MaskEmail(local + "@" + domain);
      m == Prefix(local, 3) + "***" + Suffix(local, 2) + "@" + domain
      && |m| <= 3 + 3 + 2 + 1 + |domain| && m[|m| - |domain|..] == domain
  {
    MaskShape(local, domain);
    BeforeFirstWithout(domain, '@');
  }

  const Morning := "早上好"
  const Afternoon := "下午好"
  const Evening := "晚上好"

  /** The greeting for a Beijing hour: morning from 5 to 11, afternoon from
      12 to 17, evening otherwise. */
  function Greeting(hour: int): (g: string)
    ensures g == Morning <==> 5 <= hour < 12
    ensures g == Afternoon <==> 12 <= hour < 18
    ensures g == Evening <==> hour < 5 || 18 <= hour
  {
    if 5 <= hour < 12 then Morning else if 12 <= hour < 18 then Afternoon else Evening
  }

  function Title(greeting: string): string {
    "GLaDOS " + greeting + "简报"
  }

  const LowStock := " <font color='#e74c3c'>⚠️ 库存紧张</font>"
  const WellStocked := " <font color='#27ae60'>✅ 储备充足</font>"

  /** The remaining-days flag: the warning exactly when fewer than 7 days are left. */
  function DaysFlag(leftDays: int): (flag: string)
    ensures flag == LowStock <==> leftDays < 7
    ensures flag == WellStocked <==> leftDays >= 7
  {
    if leftDays < 7 then LowStock else WellStocked
  }

  /** The heading line; between the two heading marks and the greeting sits
      the private-use character U+F8FF. */
  function Header(greeting: string): string {
    "## \U{F8FF} " + greeting + "。这是您的资产简报 \n\n"
  }

  function Footer(clockText: string): string {
    "\n---\n<font color='#999999' size='2'>🕒 数据更新于: " + clockText + "</font>"
  }

  /** The block rendered for one account, line by line; the advice block
      only when there is one. */
  function AccountBlock(s: Snapshot, expire: string): string
    requires '@' in s.email
  {
    AccountLine(MaskEmail(s.email)) + CoreHeading + PointsLine(s.points, s.pointsChange)
    + DaysLine(s.leftDays) + ExpiryLine(expire) + StatusLine(s.lastMsg) + AdviceTail(s.exchangeAdvice)
  }

  function AccountLine(masked: string): string {
    "#### 👤 账号: `" + masked + "`\n"
  }

  const CoreHeading := "> **核心资产报告**\n"

  function PointsLine(points: int, change: string): string {
    "> - 💰 **当前积分**: `" + IntText(points) + "` (" + change + ")\n"
  }

  function DaysLine(leftDays: int): string {
    "> - ⏳ **可用天数**: `" + IntText(leftDays) + "` 天 " + DaysFlag(leftDays) + "\n"
  }

  function ExpiryLine(expire: string): string {
    "> - 📅 **断粮日期**: `" + expire + "`\n"
  }

  function StatusLine(lastMsg: string): string {
    "> - 🔔 **状态反馈**: " + lastMsg + "\n\n"
  }

  function AdviceTail(advice: string): string {
    if advice != "" then advice + "\n\n" else ""
  }

  /** Every account's email can be masked. */
  predicate AllMaskable(accounts: seq<Snapshot>) {
    forall s <- accounts :: '@' in s.email
  }

  /** The account blocks, in account order. */
  function Blocks(accounts: seq<Snapshot>, expireDate: int -> string): string
    requires AllMaskable(accounts)
  {
    if accounts == [] then ""
    else
      var last := accounts[|accounts| - 1];
      Blocks(accounts[..|accounts| - 1], expireDate) + AccountBlock(last, expireDate(last.leftDays))
  }

  /** One more account adds its block after the others. */
  lemma BlocksStep(accounts: seq<Snapshot>, i: nat, expireDate: int -> string)
    requires i < |accounts| && AllMaskable(accounts[..i]) && '@' in accounts[i].email
    ensures AllMaskable(accounts[..i + 1])
    ensures Blocks(accounts[..i + 1], expireDate)
      == Blocks(accounts[..i], expireDate) + AccountBlock(accounts[i], expireDate(accounts[i].leftDays))
  {
    TakeOneMore(accounts, i);
    var prefix := accounts[..i + 1];
    assert prefix[..i] == accounts[..i];
  }

  /** The briefing: header, the account blocks, the news block and the
      footer; `None` when some email has no '@', where the script raises
      before anything is sent. */
  function ReportText(greeting: string, accounts: seq<Snapshot>, ctx: Context): Option<string> {
    if AllMaskable(accounts) then Some(Header(greeting) + Blocks(accounts, ctx.expireDate) + ctx.daily + Footer(ctx.clockText))
    else None
  }

  function Views(accounts: seq<GLaDOS>): (vs: seq<Snapshot>)
    reads set i | 0 <= i < |accounts| :: accounts[i]
    ensures |vs| == |accounts|
    ensures forall i :: 0 <= i < |accounts| ==> vs[i] == accounts[i].View()
  {
    seq(|accounts|, i reads accounts requires 0 <= i < |accounts| => accounts[i].View())
  }

  /** The lines one account adds to the briefing, appended one at a time. */
  method AppendAccount(md: string, g: Snapshot, expire: string) returns (out: string)
    requires '@' in g.email
    ensures out == md + AccountBlock(g, expire)
  {
    ghost var lines := AccountLine(MaskEmail(g.email));
    out := md + AccountLine(MaskEmail(g.email));
    out := out + CoreHeading;
    Regroup(md, lines, CoreHeading);
    lines := lines + CoreHeading;
    out := out + PointsLine(g.points, g.pointsChange);
    Regroup(md, lines, PointsLine(g.points, g.pointsChange));
    lines := lines + PointsLine(g.points, g.pointsChange);
    out := out + DaysLine(g.leftDays);
    Regroup(md, lines, DaysLine(g.leftDays));
    lines := lines + DaysLine(g.leftDays);
    out := out + ExpiryLine(expire);
    Regroup(md, lines, ExpiryLine(expire));
    lines := lines + ExpiryLine(expire);
    out := out + StatusLine(g.lastMsg);
    Regroup(md, lines, StatusLine(g.lastMsg));
    lines := lines + StatusLine(g.lastMsg);
    if g.exchangeAdvice != "" {
      out := out + (g.exchangeAdvice + "\n\n");
    }
    Regroup(md, lines, AdviceTail(g.exchangeAdvice));
  }

  /** The loop that builds the Markdown text, account by account. */
  method BuildReport(greeting: string, accounts: seq<GLaDOS>, ctx: Context) returns (body: Option<string>)
    ensures body == ReportText(greeting, Views(accounts), ctx)
  {
    ghost var views := Views(accounts);
    var md := Header(greeting);
    ghost var head := md;
    for i := 0 to |accounts|
      invariant AllMaskable(views[..i])
      invariant md == head + Blocks(views[..i], ctx.expireDate)
    {
      var g := accounts[i].View();
      if '@' !in g.email {
        assert views[i] in views;
        return None;
      }
      var expire := ctx.expireDate(g.leftDays);
      md := AppendAccount(md, g, expire);
      BlocksStep(views, i, ctx.expireDate);
      Regroup(head, Blocks(views[..i], ctx.expireDate), AccountBlock(views[i], expire));
    }
    TakeAll(views);
    assert AllMaskable(views);
    assert md == head + Blocks(views, ctx.expireDate);
    md := md + ctx.daily + Footer(ctx.clockText);
    assert ReportText(greeting, views, ctx) == Some(md);
    assert Views(accounts) == views;
    return Some(md);
  }

  /** The fields of an account once `main` has checked it in and fetched its
      data. */
  function ProcessAccount(cookie: string, net: Network, percent: (int, int) -> string): Snapshot {
    AfterFetch(Initial.(lastMsg := LastMessage(CheckinOutcome(net, cookie))),
               StatusOutcome(net, cookie), PointsOutcome(net, cookie), percent)
  }

  /** The accounts of a run, one per cookie, in order. */
  function Processed(cookies: seq<string>, net: Network, percent: (int, int) -> string): (accounts: seq<Snapshot>)
    ensures |accounts| == |cookies|
    ensures forall i :: 0 <= i < |cookies| ==> accounts[i] == ProcessAccount(cookies[i], net, percent)
  {
    seq(|cookies|, i requires 0 <= i < |cookies| => ProcessAccount(cookies[i], net, percent))
  }

  /** One fresh account object per cookie, in cookie order, each checked in
      and then fetched. */
  method ProcessAll(cookies: seq<string>, net: Network, percent: (int, int) -> string) returns (accounts: seq<GLaDOS>)
    ensures |accounts| == |cookies|
    ensures forall i :: 0 <= i < |cookies| ==>
      fresh(accounts[i]) && accounts[i].cookie == cookies[i]
      && accounts[i].View() == ProcessAccount(cookies[i], net, percent)
  {
    accounts := [];
    for i := 0 to |cookies|
      invariant |accounts| == i
      invariant forall j :: 0 <= j < i ==>
        fresh(accounts[j]) && accounts[j].cookie == cookies[j]
        && accounts[j].View() == ProcessAccount(cookies[j], net, percent)
    {
      var g := new GLaDOS(cookies[i]);
      var res := g.Checkin(net);
      g.lastMsg := LastMessage(res);
      g.FetchData(net, percent);
      accounts := accounts + [g];
    }
  }

  /** What a run amounts to: nothing without cookies, an exception while
      rendering, or the briefing and the request each channel is sent. */
  datatype RunResult =
    | NoCookie
    | Aborted
    | Delivered(title: string, body: string, dingTalk: Option<Push.Post>, serverChan: Option<Push.Post>)

  /** The run as a function of its inputs. */
  function RunOutcome(config: Config, ctx: Context, net: Network, percent: (int, int) -> string,
                      sign: (string, string) -> string): RunResult
  {
    if config.rawCookie == "" then NoCookie
    else
      var cookies := Cookies(config.rawCookie);
      var accounts := Processed(cookies, net, percent);
      var greeting := Greeting(ctx.hour);
      match ReportText(greeting, accounts, ctx)
      case None => Aborted
      case Some(body) =>
        var title := Title(greeting);
        Delivered(title, body, Push.DingTalk(config.webhook, config.secret, ctx.millis, title, body, sign),
                  Push.ServerChan(config.sendKey, title, body))
  }

  /** `main`, apart from reading the settings and logging. */
  method Run(config: Config, ctx: Context, net: Network, percent: (int, int) -> string,
             sign: (string, string) -> string) returns (result: RunResult)
    ensures result == RunOutcome(config, ctx, net, percent, sign)
  {
    if config.rawCookie == "" {
      return NoCookie;
    }
    var cookies := Cookies(config.rawCookie);
    var accounts := ProcessAll(cookies, net, percent);
    var greeting := Greeting(ctx.hour);
    var title := Title(greeting);
    var body := BuildReport(greeting, accounts, ctx);
    ghost var expected := Processed(cookies, net, percent);
    assert Views(accounts) == expected by {
      forall i | 0 <= i < |cookies|
        ensures Views(accounts)[i] == expected[i]
      {
      }
    }
    if body.None? {
      return Aborted;
    }
    var dingTalk := Push.DingTalk(config.webhook, config.secret, ctx.millis, title, body.value, sign);
    var serverChan := Push.ServerChan(config.sendKey, title, body.value);
    return Delivered(title, body.value, dingTalk, serverChan);
  }

  /** Neither placeholder email is an address. */
  lemma PlaceholdersLackAt()
    ensures '@' !in Initial.email && '@' !in "Unknown"
  {
    assert Initial.email == ['?'];
    assert "Unknown" == ['U', 'n', 'k', 'n', 'o', 'w', 'n'];
  }

  /** Without cookies nothing happens; otherwise the briefing goes out
      unless rendering raises, and both channels get the same title and text,
      each exactly when it is configured. */
  lemma RunShape(config: Config, ctx: Context, net: Network, percent: (int, int) -> string,
                 sign: (string, string) -> string)
    ensures var r := RunOutcome(config, ctx, net, percent, sign);
      (r.NoCookie? <==> config.rawCookie == "")
      && (r.Delivered? ==>
            r.title == Title(Greeting(ctx.hour))
            && (r.dingTalk.Some? <==> config.webhook != "")
            && (r.serverChan.Some? <==> config.sendKey != "")
            && (r.dingTalk.Some? ==> r.dingTalk.value.title == r.title && r.dingTalk.value.text == r.body)
            && (r.serverChan.Some? ==> r.serverChan.value.title == r.title && r.serverChan.value.desp == r.body))
  {
  }

  /** A status outcome that leaves no email: every mirror failed, or the
      reply has no `data`, or its `data` has no `email`. */
  predicate GivesNoEmail(status: Option<StatusBody>) {
    status.None? || status.value.data.None? || status.value.data.value.email.None?
  }

  /** An account whose status call yields no email keeps "?" or gets
      "Unknown"; neither has an '@', so rendering raises and no channel is
      sent anything. */
  lemma MissingEmailAbortsRun(config: Config, ctx: Context, net: Network, percent: (int, int) -> string,
                              sign: (string, string) -> string)
    ensures var cookies := Cookies(config.rawCookie);
      config.rawCookie != "" && (exists k :: 0 <= k < |cookies| && GivesNoEmail(StatusOutcome(net, cookies[k])))
      ==> RunOutcome(config, ctx, net, percent, sign) == Aborted
  {
    var cookies := Cookies(config.rawCookie);
    if config.rawCookie != "" && exists k :: 0 <= k < |cookies| && GivesNoEmail(StatusOutcome(net, cookies[k])) {
      var k :| 0 <= k < |cookies| && GivesNoEmail(StatusOutcome(net, cookies[k]));
      var accounts := Processed(cookies, net, percent);
      var cookie := cookies[k];
      var checked := Initial.(lastMsg := LastMessage(CheckinOutcome(net, cookie)));
      StatusFields(checked, StatusOutcome(net, cookie), PointsOutcome(net, cookie), percent);
      var s := accounts[k];
      assert s == AfterFetch(checked, StatusOutcome(net, cookie), PointsOutcome(net, cookie), percent);
      assert s.email == Initial.email || s.email == "Unknown";
      PlaceholdersLackAt();
      assert s in accounts;
      assert !AllMaskable(accounts);
    }
  }
}
