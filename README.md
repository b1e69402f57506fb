# GLaDOS check-in, modelled in Dafny

A model of the GLaDOS daily check-in script `checkin.py`. For every account
cookie the script checks in with the GLaDOS service, fetches the account
status and points balance, and computes how far the balance is from each of
three fixed exchange tiers. All requests go through a list of mirror domains
with failover. It then renders one Markdown briefing for all accounts and
hands it to a DingTalk robot webhook (signed when a secret is set) and to
Server酱.

The model keeps the script's structure:

- `Failover` (`failover.dfy`): the ordered mirror list and the first usable
  reply of a failover call. A mirror's reply is a value: an exception, a
  status code other than 200, a 200 whose body does not parse, or a 200 with
  a parsed body.
- `Account` (`account.dfy`): the `GLaDOS` class. `Req` is the mirror loop
  with early return, and `Checkin` is the check-in call through it; neither
  writes a field. `FetchData` overwrites the status and points fields step
  by step, and `main` sets `lastMsg` (`Report.ProcessAll`). The pure
  functions `WithStatus`, `WithPoints` and `AfterFetch` say what the fields
  become. The exchange-tier advice is built by the `BuildAdvice` loop and
  specified by `AdviceText`.
- `ZenBar` (`zenbar.dfy`): the eight-cell progress bar `get_zen_bar`.
- `Report` (`report.dfy`): `main`. It splits the cookie setting, makes one
  account object per cookie in order (`ProcessAll`) and renders the
  briefing (`BuildReport`, with email masking, greeting and days warning).
  `Run` is the whole run and `RunOutcome` is its specification.
- `Push` (`push.dfy`): the request each notification channel would send.
- `Text` (`text.dfy`): the Python string built-ins used (`strip`, `split`,
  `join`, slicing, `str` of an integer, `int(float(x))`).

Inputs the script takes from outside become parameters:

- the network is three functions from request to reply, one for each
  endpoint (`Account.Network`);
- the clock gives the Beijing hour, the expiry date for a number of days,
  the footer time and the millisecond timestamp (`Report.Context`);
- the decorative news block is given as text;
- the DingTalk signature is a function `sign(key, message)`;
- the formatted percentage of a progress bar is a function
  `percent(current, target)`.

An unset setting is the empty string; both are false in Python.

A few things the script does not do, and the model therefore does not do
either:

- the script splits the cookie setting on newlines only; it has no `&`
  delimiter and does not rewrite JSON tokens;
- the three exchange tiers are fixed constants;
- the gap and the remaining days are not clamped at zero;
- the title does not count successful accounts, and nothing sets an exit
  code;
- an email without '@' makes the rendering raise `IndexError`, so nothing is
  sent; such an email is never shown unmasked.

## Model

| member | source | states |
|---|---|---|
| Failover.FirstAccepted | checkin.py:84-89 | the index of the first mirror reply that is a 200 with a parsed body; every earlier reply is not |
| Failover.Outcome | checkin.py:83-91 | `None` exactly when no mirror gives a usable reply; otherwise the body of the first usable reply in domain order |
| Failover.LaterMirrorsIrrelevant | checkin.py:84-89 | replies after the first usable one never change the outcome |
| Account.GLaDOS.Req | checkin.py:83-91 | the loop returns the failover outcome; the requests sent are the domains in order with the account cookie, up to and including the first usable reply, or all three when none is usable |
| Account.GLaDOS.constructor | checkin.py:78-81 | a new account keeps its cookie and starts with email "?", 0 days, 0 points, delta "+0", empty message and empty advice |
| Account.GLaDOS.Checkin | checkin.py:121-122 | the check-in is a POST of `{"token": "glados.cloud"}` to `/api/user/checkin` through the mirrors |
| Account.GLaDOS.FetchData | checkin.py:93-119 | the fields after the status call and then the points call are exactly `AfterFetch` of the old fields and the two failover outcomes |
| Account.NetErrorWithoutUsableReply | checkin.py:173 | with no usable check-in reply, or one without `message`, the last message is "Net Error" |
| Account.StatusFields | checkin.py:94-97 | no reply or no `data`: email and days untouched; missing email becomes "Unknown"; days are `leftDays` (0 when absent) truncated toward zero, i.e. rounded down for a non-negative number and up for a negative one; the points reply never touches these fields |
| Account.PointsFields | checkin.py:99-119 | with `points`: the balance is the number truncated toward zero (rounded down when non-negative, up when negative), the delta is the signed first history change and is kept when the history is empty, and the advice is rebuilt for the new balance |
| Account.SignedChange | checkin.py:104-105 | the delta is the text before the first '.', with '+' in front unless it starts with '-'; it always starts with a sign and has no '.' |
| Account.SignedChangeOfNumber | checkin.py:104-105 | for the text of a number the delta is that integer with an explicit sign |
| Account.PointsChangeIsSigned | checkin.py:81 | the delta starts with '+' or '-' and holds no '.' after every fetch, as the initial "+0" does |
| Account.Assess | checkin.py:112-117 | a tier is ready exactly when the balance reaches it; otherwise the gap is target minus balance and is positive |
| Account.AdviceBlockLines | checkin.py:108-119 | the advice block splits into the header and exactly one line per tier, in the order (100,10), (200,30), (500,100) |
| Account.AdviceLinesSingle | checkin.py:109-118 | no advice line holds a line break |
| Account.AdviceOnlyWithPoints | checkin.py:100-119 | the advice block is non-empty exactly when the points reply has `points` |
| Account.BuildAdvice | checkin.py:108-119 | the loop appending one line per tier produces `AdviceText` |
| Account.WorkedExample | checkin.py:96-117 | 9.7 days becomes 9, 150.0 points becomes 150, a "-5" change stays "-5"; 150 points is ready for 100 and 50 and 350 short of 200 and 500 |
| ZenBar.FilledInEighths | checkin.py:41-42 | for a non-negative balance the filled count is min(8·current div target, 8) |
| ZenBar.BarHasEightCells | checkin.py:41-43 | for a non-negative balance the bar is 8 cells, the filled ones first, all filled at or above the target |
| ZenBar.NegativeBalanceOverflowsBar | checkin.py:41-43 | a negative balance fills no cell and gives at least 8 empty cells |
| ZenBar.BarTextSingle | checkin.py:44 | the bar text is one line when the percentage text is |
| Text.StripIsTrimmedSlice | checkin.py:168 | `strip` returns a contiguous piece of its input |
| Text.StripHasNoOuterSpace | checkin.py:168 | what `strip` returns neither starts nor ends with whitespace |
| Text.TrimLeftDropsSpaces | checkin.py:168 | `lstrip` removes whitespace only |
| Text.TrimRightDropsSpaces | checkin.py:168 | `rstrip` removes whitespace only |
| Text.Split | checkin.py:168 | a split has at least one piece, and more than one exactly when the separator occurs |
| Text.JoinSplit | checkin.py:168 | joining the pieces of a split gives back the string |
| Text.SplitJoin | checkin.py:119 | splitting a join of separator-free pieces gives back the pieces |
| Text.BeforeFirst | checkin.py:104 | the text before the first separator is a prefix without the separator, followed by the separator when shorter |
| Text.BeforeFirstIsFirstPiece | checkin.py:104 | that prefix is the first piece of the split |
| Text.Truncate | checkin.py:97 | `int(float(x))` rounds toward zero |
| Text.IntTextRoundTrip | checkin.py:192-193 | the decimal text of an integer reads back as the same integer |
| Report.CookiesAreClean | checkin.py:168 | every cookie is non-empty, has no outer whitespace, is unchanged by `strip` and has no line break |
| Report.CookiesRoundTrip | checkin.py:168 | clean cookies written one per line come back unchanged and in order |
| Report.MaskShape | checkin.py:185-186 | the mask is the first 3 and last 2 characters of the local part around "***", then '@' and the text up to any second '@' |
| Report.MaskKeepsDomain | checkin.py:185-186 | with exactly one '@' the domain is kept verbatim at the end of the mask |
| Report.Greeting | checkin.py:180 | morning exactly for hours 5 to 11, afternoon for 12 to 17, evening otherwise |
| Report.DaysFlag | checkin.py:188 | the low-stock warning exactly when fewer than 7 days are left, the well-stocked mark otherwise |
| Account.LastMessage | checkin.py:173 | the check-in reply's `message` when there is one; "Net Error" when there is no usable reply or no `message` |
| Account.WithStatus | checkin.py:94-97 | the fields after the status reply; stated by `StatusFields` |
| Account.WithPoints | checkin.py:99-119 | the fields after the points reply; stated by `PointsFields`, `PointsChangeIsSigned` and `AdviceOnlyWithPoints` |
| Account.AfterFetch | checkin.py:93-119 | the status reply applied, then the points reply; the specification of `FetchData` |
| Account.TierLine | checkin.py:111-118 | the advice line of one tier: bar, ready or saving label, days, and "可兑换" or the gap; the verdict is stated by `Assess` and the order of the lines by `AdviceBlockLines` |
| ZenBar.Filled | checkin.py:41-42 | `int(min(current / target, 1.0) * 8)`: never more than 8 cells, and none negative for a non-negative balance; its exact value is stated by `FilledInEighths` and `NegativeBalanceOverflowsBar` |
| ZenBar.Cells | checkin.py:43 | the filled cells, then the empty ones; stated by `BarHasEightCells` |
| ZenBar.BarText | checkin.py:44 | the bar in backticks, the percentage text and `(current/targetpt)`; stated by `BarTextSingle` |
| Text.Strip | checkin.py:168 | `str.strip()`; what it returns is stated by `StripIsTrimmedSlice`, `StripHasNoOuterSpace` and the two `DropsSpaces` lemmas |
| Report.Cookies | checkin.py:168 | every cookie is non-empty and has no outer whitespace; order and completeness are stated by `CookiesRoundTrip` |
| Report.MaskEmail | checkin.py:185-186 | the masked email, defined only when there is an '@', keeps an '@'; its shape is stated by `MaskShape` and `MaskKeepsDomain` |
| Report.Title | checkin.py:181 | "GLaDOS " + greeting + "简报", the title both channels receive (`RunShape`) |
| Report.Header | checkin.py:183 | the heading line with the greeting, which starts the briefing (`BuildReport`) |
| Report.Footer | checkin.py:200 | the update-time footer, which ends the briefing (`BuildReport`) |
| Report.AccountBlock | checkin.py:190-197 | the six lines of one account and its advice block when non-empty; `AppendAccount` is proved to append exactly this |
| Report.AppendAccount | checkin.py:190-197 | the six lines of an account, and its advice block when there is one, are appended to the text |
| Report.BlocksStep | checkin.py:184-197 | each further account adds its block after those of the earlier accounts |
| Report.BuildReport | checkin.py:183-200 | the loop yields the header, every account's block in order, the news block and the footer; `None` when an email has no '@' |
| Report.ProcessAll | checkin.py:169-176 | one new account object per cookie, in cookie order, each checked in and then fetched |
| Report.Run | checkin.py:154-204 | the run is `RunOutcome` of the settings, the clock, the network and the signature |
| Report.RunShape | checkin.py:163-204 | no cookie setting means nothing happens; otherwise both channels get the same title and text, each exactly when configured |
| Report.MissingEmailAbortsRun | checkin.py:185-186 | an account whose status gives no email keeps "?" or gets "Unknown", so rendering raises and nothing is sent |
| Push.DingTalk | checkin.py:126-134 | no post without a webhook; the webhook unchanged without a secret; with one, the timestamp and the signature of "timestamp\nsecret" appended |
| Push.SignedUrlExtendsWebhook | checkin.py:129-134 | the webhook is a prefix of the URL, and the URL equals it exactly when no secret is set |
| Push.ServerChan | checkin.py:141-145 | no post without a send key; otherwise a post of title and text to the key's `sctapi.ftqq.com` URL |

## Left out

- HTTP itself, the request headers, timeouts and JSON decoding: a mirror's reply is a value, and a body is a typed record whose keys may be missing. A reply whose JSON has another shape, such as a `data` that is not an object, is not modelled.
- Floating point: `leftDays` and `points` are exact rationals, so the rounding, infinities and NaN of IEEE doubles are not captured. The `change` value is given as its Python `str()` text.
- The percentage text of the progress bar (`int(percent*100)` padded to three columns) is an input, because it is float arithmetic that can be off by one.
- `get_geek_daily` is not part of this model. Its text is an input.
- The clock and calendar: the Beijing hour, the expiry date, the footer time and the millisecond timestamp are inputs.
- HMAC-SHA256, base64 and `quote_plus` are the opaque `sign` function.
- Sending the notifications, reading the Server酱 reply, logging and reading the environment are not modelled. Reconfiguring stdout on Windows is not modelled either.
- Account.GLaDOS.Req: the requests it sends are a ghost record. The headers other than the cookie are not modelled.
- Report.BuildReport: an email without '@' raises `IndexError` in the script, and nothing is sent. The model returns `None`, and `MaskEmail` requires an '@'.
- Report.Context: the expiry date is a total input function, so the `OverflowError` that adding a very large number of days to the current date raises is not modelled.
- Account.Network: each endpoint is a pure function of the request, so two identical cookie lines get the same replies; a service that answers a repeated check-in differently is not modelled.
