/**
 * `MailingService` (src/mailing/mailing.service.ts): the two batch loops that walk a client
 * list over the non-banned userbots with a round-robin cursor, and their pure helpers.
 *
 * The clock, `Math.random` and the outcome of every send are inputs: one clock hour per
 * client (`hours`), one random draw per choice (`pick`, `picks`, `delayPicks`) and one
 * remote outcome per send (`networks`, `calls`). Sleeping is recorded, not performed: each
 * attempt says whether the loop paused for the working-hours window and which pacing delay
 * it awaited.
 */
module Mailing {
  import opened Wrappers
  import opened Strings
  import TelegramService

  /** What `Date.getHours()` returns. */
  type Hour = h: int | 0 <= h < 24

  /** What `Date.getMinutes()` returns. */
  type Minute = m: int | 0 <= m < 60

  // ---------------------------------------------------------------------------
  // Working hours and pacing

  /** `isWithinWorkingHours`: sending is allowed from 09:00 up to, not including, 21:00. */
  predicate IsWithinWorkingHours(hour: Hour) { hour >= 9 && hour < 21 }

  /** `getDelay`, where `draw` is `Math.floor(Math.random() * 28)`: a whole number of minutes
      from 3 to 30, in milliseconds. */
  function GetDelay(draw: nat): (ms: nat)
    requires draw < 28
    ensures ms % 60000 == 0 && 180000 <= ms <= 1800000
  {
    var delayMinutes := draw + 3;
    delayMinutes * 60 * 1000
  }

  /** Every whole number of minutes from 3 to 30 is a possible delay, for exactly one draw. */
  lemma GetDelayCoversRange(ms: nat)
    requires ms % 60000 == 0 && 180000 <= ms <= 1800000
    ensures exists draw: nat :: draw < 28 && GetDelay(draw) == ms
    ensures forall d1: nat, d2: nat :: d1 < 28 && d2 < 28 && GetDelay(d1) == ms && GetDelay(d2) == ms ==> d1 == d2
  {
    var draw: nat := ms / 60000 - 3;
    assert GetDelay(draw) == ms;
  }

  // ---------------------------------------------------------------------------
  // getNextWorkingTime

  datatype Clock = Clock(hour: nat, minute: nat)

  /** `getNextWorkingTime` before formatting, as written: 09:00 from 21:00 on, otherwise one
      hour later than now (wrapping 21 to 9). */
  function NextWorkingClockAsWritten(hour: Hour, minute: Minute): (c: Clock)
    ensures c.hour < 24 && c.minute < 60
  {
    if hour >= 21 then Clock(9, 0)
    else
      var nextHour := hour + 1;
      var nextMinute := minute;
      if nextHour >= 21 then Clock(9, nextMinute) else Clock(nextHour, nextMinute)
  }

  /** The two-digit decimal rendering of `n < 100`, as `n.toString().padStart(2, '0')`. */
  function Pad2(n: nat): (s: string)
    requires n < 100
    ensures |s| == 2 && AllDigits(s)
  {
    [(48 + n / 10) as char, (48 + n % 10) as char]
  }

  function FormatClock(c: Clock): (s: string)
    requires c.hour < 100 && c.minute < 100
    ensures |s| == 5 && s[2] == ':'
  {
    Pad2(c.hour) + ":" + Pad2(c.minute)
  }

  /** Reads back a rendering "HH:MM". */
  function ParseClock(s: string): Option<Clock> {
    if |s| == 5 && s[2] == ':' && AllDigits(s[..2]) && AllDigits(s[3..]) then
      Some(Clock((s[0] as int - 48) * 10 + (s[1] as int - 48), (s[3] as int - 48) * 10 + (s[4] as int - 48)))
    else None
  }

  /** The rendering loses nothing: parsing it gives the clock back. */
  lemma ParseFormatClock(c: Clock)
    requires c.hour < 100 && c.minute < 100
    ensures ParseClock(FormatClock(c)) == Some(c)
  {
    var s := FormatClock(c);
    assert s[..2] == Pad2(c.hour) && s[3..] == Pad2(c.minute);
  }

  /** `getNextWorkingTime`, as written: the "HH:MM" text it logs. */
  function GetNextWorkingTime(hour: Hour, minute: Minute): (s: string)
    ensures ParseClock(s) == Some(NextWorkingClockAsWritten(hour, minute))
  {
    ParseFormatClock(NextWorkingClockAsWritten(hour, minute));
    FormatClock(NextWorkingClockAsWritten(hour, minute))
  }

  /** As written, before 08:00 the "next working time" it reports lies outside the window:
      at 03:47 it reports 04:47. */
  lemma NextWorkingTimeAsWrittenLeavesWindow(hour: Hour, minute: Minute)
    requires hour < 8
    ensures NextWorkingClockAsWritten(hour, minute) == Clock(hour + 1, minute)
    ensures !IsWithinWorkingHours(NextWorkingClockAsWritten(hour, minute).hour)
    ensures GetNextWorkingTime(3, 47) == "04:47"
  {
    ParseFormatClock(Clock(4, 47));
  }

  /** The number of whole hours from `hour` forward to 09:00, or 0 inside the window. */
  function HoursUntilWindow(hour: Hour): (n: nat)
    ensures n < 24
  {
    if IsWithinWorkingHours(hour) then 0
    else if hour < 9 then 9 - hour
    else 24 - hour + 9
  }

  /** The next working time as intended: now inside the window, otherwise 09:00. */
  function NextWorkingClock(hour: Hour, minute: Minute): (c: Clock)
    ensures c.hour < 24 && c.minute < 60 && IsWithinWorkingHours(c.hour)
    ensures !IsWithinWorkingHours(hour) ==> c == Clock(9, 0)
  {
    if IsWithinWorkingHours(hour) then Clock(hour, minute) else Clock(9, 0)
  }

  /** It is the first working time reached by letting the clock run: every hour passed on the
      way is outside the window, and the hour reached is the reported one. */
  lemma NextWorkingClockIsFirst(hour: Hour, minute: Minute)
    ensures HourAfter(hour, HoursUntilWindow(hour)) == NextWorkingClock(hour, minute).hour
    ensures forall k: nat :: k < HoursUntilWindow(hour) ==> !IsWithinWorkingHours(HourAfter(hour, k))
  {
    forall k: nat | k < HoursUntilWindow(hour) ensures !IsWithinWorkingHours(HourAfter(hour, k)) {
      if hour + k >= 24 {
        assert HourAfter(hour, k) == hour + k - 24;
      }
    }
  }

  /** The clock hour `k` hours after `hour`. */
  function HourAfter(hour: Hour, k: nat): Hour { (hour + k) % 24 }

  // ---------------------------------------------------------------------------
  // isWhatsAppConnectionError

  /** The fields of a thrown value that the classifier reads: `message`, `output.statusCode`,
      `isBoom` and `output.payload.message`. A missing field is `None`. */
  datatype JsError = JsError(message: Option<string>, statusCode: Option<int>, isBoom: bool, payloadMessage: Option<string>)

  /** The lower-case message fragments that mark a connection problem. */
  const ConnectionMessageMarkers: seq<string> :=
    ["connection closed", "connection lost", "socket closed", "disconnected",
     "precondition required", "timed out", "timeout"]

  /** 428 Precondition Required (RFC 6585 section 3), 408 Request Timeout (RFC 9110 section
      15.5.9), 503 Service Unavailable, 502 Bad Gateway and 504 Gateway Timeout (RFC 9110
      sections 15.6.4, 15.6.3 and 15.6.5). */
  const ConnectionStatusCodes: set<int> := {428, 408, 503, 502, 504}

  predicate MentionsConnectionProblem(loweredMessage: string) {
    exists k :: 0 <= k < |ConnectionMessageMarkers| && Contains(loweredMessage, ConnectionMessageMarkers[k])
  }

  /** The classification the lists above describe. */
  predicate ListedConnectionError(error: Option<JsError>) {
    && error.Some?
    && (|| MentionsConnectionProblem(ToLower(error.value.message.GetOr("")))
        || (error.value.statusCode.Some? && error.value.statusCode.value in ConnectionStatusCodes)
        || (error.value.isBoom && error.value.payloadMessage.Some?
            && Contains(error.value.payloadMessage.value, "Connection Closed")))
  }

  /** `isWhatsAppConnectionError`; `None` is a null or undefined error. */
  function IsWhatsAppConnectionError(error: Option<JsError>): (r: bool)
    ensures r ==> error.Some?
  {
    if error.None? then false
    else
      var e := error.value;
      var errorMessage := ToLower(e.message.GetOr(""));
      var statusCode := e.statusCode;
      if || Contains(errorMessage, "connection closed")
         || Contains(errorMessage, "connection lost")
         || Contains(errorMessage, "socket closed")
         || Contains(errorMessage, "disconnected")
         || Contains(errorMessage, "precondition required")
         || Contains(errorMessage, "timed out")
         || Contains(errorMessage, "timeout")
      then
        true
      else if statusCode == Some(428) || statusCode == Some(408) || statusCode == Some(503)
           || statusCode == Some(502) || statusCode == Some(504)
      then
        true
      else if e.isBoom && e.payloadMessage.Some? && Contains(e.payloadMessage.value, "Connection Closed") then
        true
      else
        false
  }

  /** The chain of tests in the code classifies exactly as the marker list and the status
      code set say. */
  lemma ConnectionErrorIffListed(error: Option<JsError>)
    ensures IsWhatsAppConnectionError(error) <==> ListedConnectionError(error)
  {
    if error.Some? {
      var m := ToLower(error.value.message.GetOr(""));
      var markers := ConnectionMessageMarkers;
      assert markers[0] == "connection closed" && markers[1] == "connection lost" && markers[2] == "socket closed";
      assert markers[3] == "disconnected" && markers[4] == "precondition required";
      assert markers[5] == "timed out" && markers[6] == "timeout";
      assert MentionsConnectionProblem(m) <==>
        (|| Contains(m, markers[0]) || Contains(m, markers[1]) || Contains(m, markers[2])
         || Contains(m, markers[3]) || Contains(m, markers[4]) || Contains(m, markers[5])
         || Contains(m, markers[6]));
    }
  }

  /** A marker anywhere in the message, in any mix of Latin upper and lower case, classifies
      the error as a connection error, whatever its status code. */
  lemma MessageMarkerIsConnectionError(e: JsError, before: string, marker: string, after: string)
    requires marker in ConnectionMessageMarkers
    requires e.message == Some(before + marker + after) || e.message == Some(before + UpperAscii(marker) + after)
    ensures IsWhatsAppConnectionError(Some(e))
  {
    var k :| 0 <= k < |ConnectionMessageMarkers| && ConnectionMessageMarkers[k] == marker;
    MarkersAreLowerAscii(marker);
    LowerAsciiCaseRoundTrip(marker);
    var m := e.message.value;
    ToLowerAppend(before, if e.message == Some(before + marker + after) then marker else UpperAscii(marker));
    ToLowerAppend(before + (if e.message == Some(before + marker + after) then marker else UpperAscii(marker)), after);
    StartsWithContains(marker, marker);
    ContainsInside(ToLower(before), marker, ToLower(after), marker);
    assert Contains(ToLower(m), ConnectionMessageMarkers[k]);
    ConnectionErrorIffListed(Some(e));
  }

  /** Latin lower-case letters and spaces only. */
  predicate LowerAsciiText(s: string) {
    forall i :: 0 <= i < |s| ==> 'a' <= s[i] <= 'z' || s[i] == ' '
  }

  lemma MarkersAreLowerAscii(marker: string)
    requires marker in ConnectionMessageMarkers
    ensures LowerAsciiText(marker)
  {
  }

  /** Lowering such a text, or the same text with its letters raised, gives it back. */
  lemma LowerAsciiCaseRoundTrip(s: string)
    requires LowerAsciiText(s)
    ensures ToLower(s) == s && ToLower(UpperAscii(s)) == s
  {
  }

  /** `s` with its Latin lower-case letters raised, to state case-insensitivity. */
  function UpperAscii(s: string): (r: string)
    ensures |r| == |s|
  {
    seq(|s|, i requires 0 <= i < |s| => if 'a' <= s[i] <= 'z' then (s[i] as int - 32) as char else s[i])
  }

  /** Each listed status code classifies the error as a connection error. */
  lemma StatusCodeIsConnectionError(e: JsError)
    requires e.statusCode.Some? && e.statusCode.value in ConnectionStatusCodes
    ensures IsWhatsAppConnectionError(Some(e))
  {
    ConnectionErrorIffListed(Some(e));
  }

  /** Without a marker and a listed status code, only a Boom payload naming 'Connection Closed'
      (in exactly that case) makes it a connection error. */
  lemma OtherErrorsNeedBoomPayload(e: JsError)
    requires !MentionsConnectionProblem(ToLower(e.message.GetOr("")))
    requires e.statusCode.None? || e.statusCode.value !in ConnectionStatusCodes
    ensures IsWhatsAppConnectionError(Some(e)) <==>
              e.isBoom && e.payloadMessage.Some? && Contains(e.payloadMessage.value, "Connection Closed")
  {
    ConnectionErrorIffListed(Some(e));
  }

  // ---------------------------------------------------------------------------
  // Userbots and the rotation

  datatype Userbot = Userbot(session: string, isBan: bool)

  /** A client row as the mailings read it: only its phone, taken as text. */
  datatype Client = Client(phone: string)

  predicate IsAvailable(u: Userbot) { !u.isBan }

  /** `findMany({ where: { isBan: false } })`: the non-banned userbots, each as often as in the
      table, in table order. */
  function NonBanned(table: seq<Userbot>): (r: seq<Userbot>)
    ensures forall k :: 0 <= k < |r| ==> !r[k].isBan
    ensures forall u :: u in r <==> u in table && !u.isBan
    ensures forall u :: multiset(r)[u] == if u.isBan then 0 else multiset(table)[u]
    ensures IsSubsequence(r, table)
  {
    var r := Filter(table, IsAvailable);
    assert forall k :: 0 <= k < |r| ==> r[k] in r;
    r
  }

  /** The userbot index the cursor gives each of `n` clients over `m` userbots
      (`RoundRobinFollowsCursor` ties it to the cursor). */
  function RoundRobin(n: nat, m: nat): (r: seq<nat>)
    requires m > 0
    ensures |r| == n && forall i :: 0 <= i < n ==> r[i] < m
  {
    seq(n, i requires 0 <= i < n => i % m)
  }

  /** The rotation is what `userbotCounter` does: it starts at userbot 0, and each next client
      gets the next userbot, back to 0 after the last. */
  lemma RoundRobinFollowsCursor(n: nat, m: nat)
    requires m > 0
    ensures RoundRobin(n + 1, m) == RoundRobin(n, m) + [if n == 0 then 0 else Wrap(RoundRobin(n, m)[n - 1] + 1, m)]
  {
    if n > 0 {
      CursorStep(n - 1, m);
    }
  }

  /** The rotation is fair: over `n` clients each of `m` userbots serves `n / m` clients,
      or one more for the first `n % m` of them. */
  lemma {:induction false} RoundRobinFair(n: nat, m: nat, j: nat)
    requires m > 0 && j < m
    ensures multiset(RoundRobin(n, m))[j] == n / m + (if j < n % m then 1 else 0)
  {
    if n > 0 {
      RoundRobinFair(n - 1, m, j);
      assert RoundRobin(n, m) == RoundRobin(n - 1, m) + [(n - 1) % m];
      DivModStep(n - 1, m);
    }
  }

  /** Quotient and remainder are determined by the defining equation. */
  lemma DivModUnique(n: int, m: int, q: int, r: int)
    requires m > 0 && 0 <= r < m && n == q * m + r
    ensures n / m == q && n % m == r
  {
    var q', r' := n / m, n % m;
    assert n == q' * m + r';
    assert (q - q') * m == r' - r;
    if q > q' {
      MulAtLeast(q - q', m);
    } else if q < q' {
      MulAtLeast(q' - q, m);
    }
  }

  lemma MulAtLeast(x: int, m: int)
    requires x >= 1 && m > 0
    ensures x * m >= m
  {
    assert x * m == (x - 1) * m + m;
    assert (x - 1) * m >= 0;
  }

  /** Moving on by one client moves the rotation on by one userbot, wrapping at `m`. */
  lemma DivModStep(k: nat, m: nat)
    requires m > 0
    ensures k % m == m - 1 ==> (k + 1) / m == k / m + 1 && (k + 1) % m == 0
    ensures k % m < m - 1 ==> (k + 1) / m == k / m && (k + 1) % m == k % m + 1
  {
    var q, r := k / m, k % m;
    assert k == q * m + r;
    if r == m - 1 {
      DivModUnique(k + 1, m, q + 1, 0);
    } else {
      DivModUnique(k + 1, m, q, r + 1);
    }
  }

  /** The cursor as the next send reads it: `userbotCounter` after the `>= length` reset. */
  function Wrap(counter: nat, m: nat): nat { if counter >= m then 0 else counter }

  /** Advancing the cursor by one keeps it on userbot `i mod m` for client `i`. */
  lemma CursorStep(i: nat, m: nat)
    requires m > 0
    ensures i % m + 1 <= m && Wrap(i % m + 1, m) == (i + 1) % m
  {
    DivModStep(i, m);
  }

  /** With pool [A, B (banned), C] three clients are served by A, C, A: the banned userbot is
      skipped and the rotation runs on past it. */
  lemma BannedUserbotSkipped()
    ensures var bots := NonBanned([Userbot("A", false), Userbot("B", true), Userbot("C", false)]);
            |bots| == 2 &&
            seq(3, i requires 0 <= i < 3 => bots[RoundRobin(3, |bots|)[i]].session) == ["A", "C", "A"]
  {
    BannedUserbotFiltered();
  }

  /** The table of that example keeps A and C. */
  lemma BannedUserbotFiltered()
    ensures NonBanned([Userbot("A", false), Userbot("B", true), Userbot("C", false)])
            == [Userbot("A", false), Userbot("C", false)]
  {
    var table := [Userbot("A", false), Userbot("B", true), Userbot("C", false)];
    assert table[1..] == [Userbot("B", true), Userbot("C", false)];
    assert table[1..][1..] == [Userbot("C", false)];
    assert Filter(table[1..][1..], IsAvailable) == [Userbot("C", false)] by {
      assert table[1..][1..][1..] == [];
    }
    assert Filter(table[1..], IsAvailable) == [Userbot("C", false)];
  }

  // ---------------------------------------------------------------------------
  // The Telegram batch: sendMessageTelegram and startMessageTelegram

  /** `messages[Math.floor(Math.random() * messages.length)]`; `None` is `undefined`. */
  function ChooseMessage(messages: seq<string>, pick: nat): (m: Option<string>)
    requires |messages| > 0 ==> pick < |messages|
    ensures m.Some? <==> |messages| > 0
    ensures m.Some? ==> m.value in messages
  {
    if |messages| == 0 then None else Some(messages[pick])
  }

  /** One visited client: which userbot served it, whether the loop first paused for the
      working-hours window, whether the send succeeded, and the pacing delay awaited after it. */
  datatype TelegramAttempt = TelegramAttempt(
    phone: string, bot: nat, session: string, pausedForHours: bool, sent: bool, delayMs: Option<nat>)

  datatype BatchReport<A> = NoUserbots | Finished(attempts: seq<A>, successCount: nat, errorCount: nat)

  function SentCount(attempts: seq<TelegramAttempt>): (n: nat)
    ensures n <= |attempts|
  {
    if attempts == [] then 0 else SentCount(attempts[..|attempts| - 1]) + (if attempts[|attempts| - 1].sent then 1 else 0)
  }

  lemma SentCountAppend(attempts: seq<TelegramAttempt>, a: TelegramAttempt)
    ensures SentCount(attempts + [a]) == SentCount(attempts) + (if a.sent then 1 else 0)
  {
    assert (attempts + [a])[..|attempts|] == attempts;
  }

  /** The attempt the batch makes for client `i`: userbot `i mod M`, the outcome of
      `TelegramService.sendMessage`, and a pacing delay only after a success. */
  function ExpectedTelegramAttempt(
    i: nat, clients: seq<Client>, bots: seq<Userbot>, message: Option<string>, apiConfigured: bool,
    hours: seq<Hour>, networks: seq<TelegramService.Network>, delayPicks: seq<nat>): TelegramAttempt
    requires i < |clients| == |hours| == |networks| == |delayPicks| && |bots| > 0
    requires forall k :: 0 <= k < |delayPicks| ==> delayPicks[k] < 28
  {
    var bot := RoundRobin(|clients|, |bots|)[i];
    var sent := TelegramService.SendMessage(apiConfigured, message, clients[i].phone, networks[i]).result.Ok?;
    TelegramAttempt(clients[i].phone, bot, bots[bot].session, !IsWithinWorkingHours(hours[i]),
                    sent, if sent then Some(GetDelay(delayPicks[i])) else None)
  }

  /** The userbot of each attempt, in client order. */
  function TelegramBots(attempts: seq<TelegramAttempt>): seq<nat> {
    seq(|attempts|, k requires 0 <= k < |attempts| => attempts[k].bot)
  }

  /** Over a Telegram batch each of the M userbots serves n / M of the n clients, or one more
      for the first n mod M userbots. */
  lemma TelegramBatchFair(
    clients: seq<Client>, bots: seq<Userbot>, message: Option<string>, apiConfigured: bool,
    hours: seq<Hour>, networks: seq<TelegramService.Network>, delayPicks: seq<nat>,
    attempts: seq<TelegramAttempt>, j: nat)
    requires |clients| == |hours| == |networks| == |delayPicks| == |attempts| && j < |bots|
    requires forall k :: 0 <= k < |delayPicks| ==> delayPicks[k] < 28
    requires forall i :: 0 <= i < |clients| ==>
               attempts[i] == ExpectedTelegramAttempt(i, clients, bots, message, apiConfigured, hours, networks, delayPicks)
    ensures multiset(TelegramBots(attempts))[j] == |clients| / |bots| + (if j < |clients| % |bots| then 1 else 0)
  {
    assert TelegramBots(attempts) == RoundRobin(|clients|, |bots|);
    RoundRobinFair(|clients|, |bots|, j);
  }

  /** The body of the `sendMessageTelegram` loop for client `i`: the working-hours check, the
      cursor reset, the send through the current userbot, and the tallies. The cursor moves on
      by one after a success and after a failure alike. */
  method SendToClientTelegram(
    i: nat, clients: seq<Client>, userbots: seq<Userbot>, message: Option<string>, apiConfigured: bool,
    hours: seq<Hour>, networks: seq<TelegramService.Network>, delayPicks: seq<nat>,
    counter: nat, successCount: nat, errorCount: nat)
    returns (attempt: TelegramAttempt, counter': nat, successCount': nat, errorCount': nat)
    requires i < |clients| == |hours| == |networks| == |delayPicks| && |userbots| > 0
    requires forall k :: 0 <= k < |delayPicks| ==> delayPicks[k] < 28
    requires counter <= |userbots| && Wrap(counter, |userbots|) == i % |userbots|
    ensures attempt == ExpectedTelegramAttempt(i, clients, userbots, message, apiConfigured, hours, networks, delayPicks)
    ensures counter' <= |userbots| && Wrap(counter', |userbots|) == (i + 1) % |userbots|
    ensures successCount' == successCount + (if attempt.sent then 1 else 0)
    ensures errorCount' == errorCount + (if attempt.sent then 0 else 1)
  {
    var paused := !IsWithinWorkingHours(hours[i]);
    counter', successCount', errorCount' := counter, successCount, errorCount;
    if counter' >= |userbots| {
      counter' := 0;
    }
    CursorStep(i, |userbots|);
    var currentUserbot := counter';
    var sent := TelegramService.SendMessage(apiConfigured, message, clients[i].phone, networks[i]).result.Ok?;
    if sent {
      successCount' := successCount' + 1;
      counter' := counter' + 1;
    } else {
      errorCount' := errorCount' + 1;
      counter' := counter' + 1;
      if counter' >= |userbots| {
        counter' := 0;
      }
    }
    attempt := TelegramAttempt(clients[i].phone, currentUserbot, userbots[currentUserbot].session, paused,
                               sent, if sent then Some(GetDelay(delayPicks[i])) else None);
  }

  /** `sendMessageTelegram`: one message text for the whole batch; every client visited once,
      in order; userbot `i mod M` for client `i`; a failure is counted and never stops the batch. */
  method SendMessageTelegram(
    messages: seq<string>, clients: seq<Client>, table: seq<Userbot>, pick: nat, apiConfigured: bool,
    hours: seq<Hour>, networks: seq<TelegramService.Network>, delayPicks: seq<nat>)
    returns (report: BatchReport<TelegramAttempt>)
    requires |messages| > 0 ==> pick < |messages|
    requires |hours| == |clients| && |networks| == |clients| && |delayPicks| == |clients|
    requires forall k :: 0 <= k < |delayPicks| ==> delayPicks[k] < 28
    ensures report.NoUserbots? <==> NonBanned(table) == []
    ensures report.Finished? ==>
              && |report.attempts| == |clients|
              && (forall i :: 0 <= i < |clients| ==>
                    report.attempts[i] == ExpectedTelegramAttempt(i, clients, NonBanned(table),
                      ChooseMessage(messages, pick), apiConfigured, hours, networks, delayPicks))
              && report.successCount == SentCount(report.attempts)
              && report.successCount + report.errorCount == |clients|
  {
    var randomMessage := ChooseMessage(messages, pick);
    var userbots := NonBanned(table);
    if |userbots| == 0 {
      return NoUserbots;
    }
    var attempts, successCount, errorCount :=
      TelegramLoop(clients, userbots, randomMessage, apiConfigured, hours, networks, delayPicks);
    report := Finished(attempts, successCount, errorCount);
  }

  /** The `for` loop of `sendMessageTelegram` over a non-empty list of userbots. */
  method TelegramLoop(
    clients: seq<Client>, userbots: seq<Userbot>, message: Option<string>, apiConfigured: bool,
    hours: seq<Hour>, networks: seq<TelegramService.Network>, delayPicks: seq<nat>)
    returns (attempts: seq<TelegramAttempt>, successCount: nat, errorCount: nat)
    requires |hours| == |clients| && |networks| == |clients| && |delayPicks| == |clients| && |userbots| > 0
    requires forall k :: 0 <= k < |delayPicks| ==> delayPicks[k] < 28
    ensures |attempts| == |clients|
    ensures forall i :: 0 <= i < |clients| ==>
              attempts[i] == ExpectedTelegramAttempt(i, clients, userbots, message, apiConfigured, hours, networks, delayPicks)
    ensures successCount == SentCount(attempts) && successCount + errorCount == |clients|
  {
    var userbotCounter: nat := 0;
    successCount, errorCount, attempts := 0, 0, [];
    for i := 0 to |clients|
      invariant userbotCounter <= |userbots| && Wrap(userbotCounter, |userbots|) == i % |userbots|
      invariant |attempts| == i
      invariant forall k :: 0 <= k < i ==>
                  attempts[k] == ExpectedTelegramAttempt(k, clients, userbots, message, apiConfigured,
                                                         hours, networks, delayPicks)
      invariant successCount == SentCount(attempts) && successCount + errorCount == i
    {
      var attempt;
      attempt, userbotCounter, successCount, errorCount :=
        SendToClientTelegram(i, clients, userbots, message, apiConfigured, hours, networks, delayPicks,
                             userbotCounter, successCount, errorCount);
      SentCountAppend(attempts, attempt);
      attempts := attempts + [attempt];
    }
  }

  /** `startMessageTelegram`: wait for the window if needed, then run the batch. */
  method StartMessageTelegram(
    startHour: Hour, clients: seq<Client>, messages: seq<string>, table: seq<Userbot>, pick: nat,
    apiConfigured: bool, hours: seq<Hour>, networks: seq<TelegramService.Network>, delayPicks: seq<nat>)
    returns (waitedForWindow: bool, report: BatchReport<TelegramAttempt>)
    requires |messages| > 0 ==> pick < |messages|
    requires |hours| == |clients| && |networks| == |clients| && |delayPicks| == |clients|
    requires forall k :: 0 <= k < |delayPicks| ==> delayPicks[k] < 28
    ensures waitedForWindow <==> !IsWithinWorkingHours(startHour)
    ensures report.NoUserbots? <==> NonBanned(table) == []
    ensures report.Finished? ==>
              && |report.attempts| == |clients|
              && (forall i :: 0 <= i < |clients| ==>
                    report.attempts[i] == ExpectedTelegramAttempt(i, clients, NonBanned(table),
                      ChooseMessage(messages, pick), apiConfigured, hours, networks, delayPicks))
              && report.successCount == SentCount(report.attempts)
              && report.successCount + report.errorCount == |clients|
    ensures report.Finished? && (|messages| == 0 || !apiConfigured) ==> report.successCount == 0
  {
    waitedForWindow := !IsWithinWorkingHours(startHour);
    report := SendMessageTelegram(messages, clients, table, pick, apiConfigured, hours, networks, delayPicks);
    if report.Finished? && (|messages| == 0 || !apiConfigured) {
      NoneSent(report.attempts);
    }
  }

  lemma {:induction false} NoneSent(attempts: seq<TelegramAttempt>)
    requires forall k :: 0 <= k < |attempts| ==> !attempts[k].sent
    ensures SentCount(attempts) == 0
  {
    if attempts != [] {
      NoneSent(attempts[..|attempts| - 1]);
    }
  }

  // ---------------------------------------------------------------------------
  // The WhatsApp batch: sendMessageWhatsapp and startMessageWhatsapp

  /** What `whatsappService.sendMessage` did: it returned a flag, or it threw; a thrown `null`
      or `undefined` is `Threw(None)`. */
  datatype WhatsappCall = Returned(delivered: bool) | Threw(error: Option<JsError>)

  /** How `sendMessageWhatsapp` ended. */
  datatype WhatsappOutcome =
    | Delivered
    | NotDelivered        // the service returned false: recipient missing or unreachable
    | ConnectionFailure   // a connection error: a health check of all sessions was requested
    | SendFailure         // any other thrown error, logged only
    | Rethrown            // a thrown null or undefined: logging its `message` throws a TypeError

  /** `sendMessageWhatsapp`: catches whatever the send throws and classifies it. Only a thrown
      `null` or `undefined` escapes, because the log line of the last branch reads its
      `message`. */
  function SendMessageWhatsapp(call: WhatsappCall): (r: WhatsappOutcome)
    ensures r == Delivered <==> call == Returned(true)
    ensures r == ConnectionFailure <==> call.Threw? && IsWhatsAppConnectionError(call.error)
    ensures r == Rethrown <==> call == Threw(None)
    ensures call.Returned? <==> r in {Delivered, NotDelivered}
  {
    match call
    case Returned(result) => if result then Delivered else NotDelivered
    case Threw(error) =>
      if IsWhatsAppConnectionError(error) then ConnectionFailure
      else if error.None? then Rethrown
      else SendFailure
  }

  datatype WhatsappAttempt = WhatsappAttempt(
    phone: string, bot: nat, session: string, message: Option<string>, pausedForHours: bool,
    outcome: WhatsappOutcome, delayMs: Option<nat>)

  /** The attempts after which the loop counted a success: all but those that rethrew. */
  function CompletedCount(attempts: seq<WhatsappAttempt>): (n: nat)
    ensures n <= |attempts|
  {
    if attempts == [] then 0
    else CompletedCount(attempts[..|attempts| - 1]) + (if attempts[|attempts| - 1].outcome != Rethrown then 1 else 0)
  }

  lemma CompletedCountAppend(attempts: seq<WhatsappAttempt>, a: WhatsappAttempt)
    ensures CompletedCount(attempts + [a]) == CompletedCount(attempts) + (if a.outcome != Rethrown then 1 else 0)
  {
    assert (attempts + [a])[..|attempts|] == attempts;
  }

  /** The attempt the batch makes for client `i`: userbot `i mod M`, a message drawn for this
      client, the outcome of `sendMessageWhatsapp`, and a pacing delay unless it rethrew. */
  function ExpectedWhatsappAttempt(
    i: nat, clients: seq<Client>, bots: seq<Userbot>, messages: seq<string>, hours: seq<Hour>,
    picks: seq<nat>, calls: seq<WhatsappCall>, delayPicks: seq<nat>): WhatsappAttempt
    requires i < |clients| == |hours| == |picks| == |calls| == |delayPicks| && |bots| > 0
    requires forall k :: 0 <= k < |picks| ==> |messages| > 0 ==> picks[k] < |messages|
    requires forall k :: 0 <= k < |delayPicks| ==> delayPicks[k] < 28
  {
    var bot := RoundRobin(|clients|, |bots|)[i];
    var outcome := SendMessageWhatsapp(calls[i]);
    WhatsappAttempt(clients[i].phone, bot, bots[bot].session, ChooseMessage(messages, picks[i]),
                    !IsWithinWorkingHours(hours[i]), outcome,
                    if outcome != Rethrown then Some(GetDelay(delayPicks[i])) else None)
  }

  /** The userbot of each attempt, in client order. */
  function WhatsappBots(attempts: seq<WhatsappAttempt>): seq<nat> {
    seq(|attempts|, k requires 0 <= k < |attempts| => attempts[k].bot)
  }

  /** Over a WhatsApp batch each of the M userbots serves n / M of the n clients, or one more
      for the first n mod M userbots, whatever the sends do. */
  lemma WhatsappBatchFair(
    clients: seq<Client>, bots: seq<Userbot>, messages: seq<string>, hours: seq<Hour>,
    picks: seq<nat>, calls: seq<WhatsappCall>, delayPicks: seq<nat>, attempts: seq<WhatsappAttempt>, j: nat)
    requires |clients| == |hours| == |picks| == |calls| == |delayPicks| == |attempts| && j < |bots|
    requires forall k :: 0 <= k < |picks| ==> |messages| > 0 ==> picks[k] < |messages|
    requires forall k :: 0 <= k < |delayPicks| ==> delayPicks[k] < 28
    requires forall i :: 0 <= i < |clients| ==>
               attempts[i] == ExpectedWhatsappAttempt(i, clients, bots, messages, hours, picks, calls, delayPicks)
    ensures multiset(WhatsappBots(attempts))[j] == |clients| / |bots| + (if j < |clients| % |bots| then 1 else 0)
  {
    assert WhatsappBots(attempts) == RoundRobin(|clients|, |bots|);
    RoundRobinFair(|clients|, |bots|, j);
  }

  /** The body of the `startMessageWhatsapp` loop for client `i`: the working-hours check, the
      cursor reset, the send through the current userbot, and the tallies. A send that returns
      counts as a success and is followed by the pacing delay; one that rethrows counts as an
      error. The cursor moves on by one either way. */
  method SendToClientWhatsapp(
    i: nat, clients: seq<Client>, userbots: seq<Userbot>, messages: seq<string>, hours: seq<Hour>,
    picks: seq<nat>, calls: seq<WhatsappCall>, delayPicks: seq<nat>,
    counter: nat, successCount: nat, errorCount: nat)
    returns (attempt: WhatsappAttempt, counter': nat, successCount': nat, errorCount': nat)
    requires i < |clients| == |hours| == |picks| == |calls| == |delayPicks| && |userbots| > 0
    requires forall k :: 0 <= k < |picks| ==> |messages| > 0 ==> picks[k] < |messages|
    requires forall k :: 0 <= k < |delayPicks| ==> delayPicks[k] < 28
    requires counter <= |userbots| && Wrap(counter, |userbots|) == i % |userbots|
    ensures attempt == ExpectedWhatsappAttempt(i, clients, userbots, messages, hours, picks, calls, delayPicks)
    ensures counter' <= |userbots| && Wrap(counter', |userbots|) == (i + 1) % |userbots|
    ensures successCount' == successCount + (if attempt.outcome != Rethrown then 1 else 0)
    ensures errorCount' == errorCount + (if attempt.outcome != Rethrown then 0 else 1)
  {
    var paused := !IsWithinWorkingHours(hours[i]);
    counter', successCount', errorCount' := counter, successCount, errorCount;
    if counter' >= |userbots| {
      counter' := 0;
    }
    CursorStep(i, |userbots|);
    var currentUserbot := counter';
    var message := ChooseMessage(messages, picks[i]);
    var outcome := SendMessageWhatsapp(calls[i]);
    if outcome != Rethrown {
      successCount' := successCount' + 1;
      counter' := counter' + 1;
    } else {
      errorCount' := errorCount' + 1;
      counter' := counter' + 1;
      if counter' >= |userbots| {
        counter' := 0;
      }
    }
    attempt := WhatsappAttempt(clients[i].phone, currentUserbot, userbots[currentUserbot].session, message,
                               paused, outcome, if outcome != Rethrown then Some(GetDelay(delayPicks[i])) else None);
  }

  /** `startMessageWhatsapp`: like the Telegram batch, but a new random message per client;
      since `sendMessageWhatsapp` swallows every error but a thrown `null` or `undefined`, only
      those count as errors. Before reading the userbots it awaits
      `whatsappService.healthCheckAllSessions()` outside any `try`: `healthCheckReturns` says
      whether that call returned, and when it threw the batch ends there (`None`), nothing
      read and nothing sent. */
  method StartMessageWhatsapp(
    messages: seq<string>, clients: seq<Client>, table: seq<Userbot>, startHour: Hour, healthCheckReturns: bool,
    hours: seq<Hour>, picks: seq<nat>, calls: seq<WhatsappCall>, delayPicks: seq<nat>)
    returns (waitedForWindow: bool, report: Option<BatchReport<WhatsappAttempt>>)
    requires |hours| == |clients| && |picks| == |clients| && |calls| == |clients| && |delayPicks| == |clients|
    requires forall k :: 0 <= k < |picks| ==> |messages| > 0 ==> picks[k] < |messages|
    requires forall k :: 0 <= k < |delayPicks| ==> delayPicks[k] < 28
    ensures waitedForWindow <==> !IsWithinWorkingHours(startHour)
    ensures report.Some? <==> healthCheckReturns
    ensures report.Some? ==> (report.value.NoUserbots? <==> NonBanned(table) == [])
    ensures report.Some? && report.value.Finished? ==>
              var r := report.value;
              && |r.attempts| == |clients|
              && (forall i :: 0 <= i < |clients| ==>
                    r.attempts[i] == ExpectedWhatsappAttempt(i, clients, NonBanned(table), messages,
                                                             hours, picks, calls, delayPicks))
              && r.successCount == CompletedCount(r.attempts)
              && r.successCount + r.errorCount == |clients|
  {
    waitedForWindow := !IsWithinWorkingHours(startHour);
    if !healthCheckReturns {
      return waitedForWindow, None;
    }
    var userbots := NonBanned(table);
    if |userbots| == 0 {
      return waitedForWindow, Some(NoUserbots);
    }
    var attempts, successCount, errorCount :=
      WhatsappLoop(clients, userbots, messages, hours, picks, calls, delayPicks);
    report := Some(Finished(attempts, successCount, errorCount));
  }

  /** The `for` loop of `startMessageWhatsapp` over a non-empty list of userbots. */
  method WhatsappLoop(
    clients: seq<Client>, userbots: seq<Userbot>, messages: seq<string>, hours: seq<Hour>,
    picks: seq<nat>, calls: seq<WhatsappCall>, delayPicks: seq<nat>)
    returns (attempts: seq<WhatsappAttempt>, successCount: nat, errorCount: nat)
    requires |hours| == |clients| && |picks| == |clients| && |calls| == |clients| && |delayPicks| == |clients|
    requires |userbots| > 0
    requires forall k :: 0 <= k < |picks| ==> |messages| > 0 ==> picks[k] < |messages|
    requires forall k :: 0 <= k < |delayPicks| ==> delayPicks[k] < 28
    ensures |attempts| == |clients|
    ensures forall i :: 0 <= i < |clients| ==>
              attempts[i] == ExpectedWhatsappAttempt(i, clients, userbots, messages, hours, picks, calls, delayPicks)
    ensures successCount == CompletedCount(attempts) && successCount + errorCount == |clients|
  {
    var userbotCounter: nat := 0;
    successCount, errorCount, attempts := 0, 0, [];
    for i := 0 to |clients|
      invariant userbotCounter <= |userbots| && Wrap(userbotCounter, |userbots|) == i % |userbots|
      invariant |attempts| == i
      invariant forall k :: 0 <= k < i ==>
                  attempts[k] == ExpectedWhatsappAttempt(k, clients, userbots, messages, hours, picks, calls, delayPicks)
      invariant successCount == CompletedCount(attempts) && successCount + errorCount == i
    {
      var attempt;
      attempt, userbotCounter, successCount, errorCount :=
        SendToClientWhatsapp(i, clients, userbots, messages, hours, picks, calls, delayPicks,
                             userbotCounter, successCount, errorCount);
      CompletedCountAppend(attempts, attempt);
      ghost var before := attempts;
      attempts := attempts + [attempt];
      assert forall k :: 0 <= k < i ==> attempts[k] == before[k];
    }
  }

  /** When every send returns, as `WhatsappService.sendMessage` always does, the batch counts
      no error, and the outcome of each attempt tells whether it rethrew. */
  lemma {:induction false} ReturningSendsCountNoError(
    clients: seq<Client>, bots: seq<Userbot>, messages: seq<string>, hours: seq<Hour>,
    picks: seq<nat>, calls: seq<WhatsappCall>, delayPicks: seq<nat>, attempts: seq<WhatsappAttempt>)
    requires |clients| == |hours| == |picks| == |calls| == |delayPicks| == |attempts| && |bots| > 0
    requires forall k :: 0 <= k < |picks| ==> |messages| > 0 ==> picks[k] < |messages|
    requires forall k :: 0 <= k < |delayPicks| ==> delayPicks[k] < 28
    requires forall i :: 0 <= i < |clients| ==>
               attempts[i] == ExpectedWhatsappAttempt(i, clients, bots, messages, hours, picks, calls, delayPicks)
    ensures (forall k :: 0 <= k < |calls| ==> calls[k].Returned?) ==> CompletedCount(attempts) == |attempts|
    ensures forall k :: 0 <= k < |attempts| ==> (attempts[k].outcome == Rethrown <==> calls[k] == Threw(None))
  {
    if forall k :: 0 <= k < |calls| ==> calls[k].Returned? {
      NoneRethrown(attempts);
    }
  }

  lemma {:induction false} NoneRethrown(attempts: seq<WhatsappAttempt>)
    requires forall k :: 0 <= k < |attempts| ==> attempts[k].outcome != Rethrown
    ensures CompletedCount(attempts) == |attempts|
  {
    if attempts != [] {
      NoneRethrown(attempts[..|attempts| - 1]);
    }
  }
}
