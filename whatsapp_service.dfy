/**
 * `WhatsappService` (src/whatsapp/whatsapp.service.ts): the registry of live Baileys sockets
 * keyed by session id, the auth folders behind them, the reconnect decision on a close event,
 * and the phone-to-JID formatting used for every send.
 *
 * Sockets are values with an optional logged-in user id; what Baileys, the file system and
 * the database do on each call is an input flag. The `whatsappUserbots` table is a sequence
 * of rows, and the file system the set of folders that exist.
 */
module WhatsappService {
  import opened Wrappers
  import opened Strings

  // ---------------------------------------------------------------------------
  // formatPhoneNumber

  /** The digit part of the JID: the input's digits with the Russian country code '7'
      in front, a leading trunk prefix '8' turned into that '7'. */
  function JidDigits(phone: string): (d: string)
    ensures |d| >= 1 && d[0] == '7' && AllDigits(d)
    ensures var clean := Digits(phone);
            && (clean != [] && clean[0] == '8' ==> d == "7" + clean[1..])
            && (clean != [] && clean[0] == '7' ==> d == clean)
            && (clean == [] || (clean[0] != '7' && clean[0] != '8') ==> d == "7" + clean)
  {
    var cleanPhone := Digits(phone);
    var prefixed := if !StartsWith(cleanPhone, "7") && !StartsWith(cleanPhone, "8") then "7" + cleanPhone else cleanPhone;
    var replaced := if StartsWith(prefixed, "8") then "7" + prefixed[1..] else prefixed;
    assert replaced[1..] == if prefixed == cleanPhone then cleanPhone[1..] else cleanPhone;
    replaced
  }

  /** `formatPhoneNumber`: the digit part followed by the suffix "@c.us". */
  function FormatPhoneNumber(phone: string): (jid: string)
    ensures EndsWith(jid, "@c.us") && jid[..|jid| - 5] == JidDigits(phone)
  {
    var jid := JidDigits(phone) + "@c.us";
    assert jid[|jid| - 5..] == "@c.us";
    jid
  }

  /** Every digit of the input survives, in order, except a leading '8' that becomes '7';
      nothing but a leading '7' is ever added. */
  lemma JidKeepsDigits(phone: string)
    ensures var clean := Digits(phone); var d := JidDigits(phone);
            (clean != [] && (clean[0] == '7' || clean[0] == '8')) ==> d[1..] == clean[1..] && |d| == |clean|
    ensures var clean := Digits(phone); var d := JidDigits(phone);
            (clean == [] || (clean[0] != '7' && clean[0] != '8')) ==> d[1..] == clean && |d| == |clean| + 1
  {
  }

  /** Formatting the digit part again changes nothing: the rule is idempotent. */
  lemma JidDigitsIdempotent(phone: string)
    ensures JidDigits(JidDigits(phone)) == JidDigits(phone)
  {
    DigitsOfDigits(JidDigits(phone));
  }

  /** The digit part contains no '@', so the JID has exactly one, right before "c.us". */
  lemma JidHasOneAt(phone: string)
    ensures var jid := FormatPhoneNumber(phone);
            forall k :: 0 <= k < |jid| ==> (jid[k] == '@' <==> k == |jid| - 5)
  {
    var jid := FormatPhoneNumber(phone);
    var d := JidDigits(phone);
    assert jid == d + "@c.us";
    forall k | 0 <= k < |jid| ensures jid[k] == '@' <==> k == |jid| - 5 {
      if k < |d| { assert jid[k] == d[k] && IsDigit(d[k]); }
    }
  }

  // ---------------------------------------------------------------------------
  // The reconnect decision

  /** `DisconnectReason.loggedOut` in Baileys. */
  const LoggedOut: int := 401

  /** A close event schedules a reconnect unless its status code is `loggedOut`; a missing
      status code (no `lastDisconnect`, no `output`) does reconnect. */
  predicate ShouldReconnect(statusCode: Option<int>) {
    statusCode != Some(LoggedOut)
  }

  /** The fixed reconnect delay: `setTimeout(..., 5000)`, with no backoff and no limit. */
  const ReconnectDelayMs: nat := 5000

  // ---------------------------------------------------------------------------
  // The registry

  /** A Baileys socket: an identity and the `user.id` it has once logged in. */
  datatype Socket = Socket(handle: nat, userId: Option<string>)

  /** `sock.user?.id` is truthy. */
  predicate IsConnected(sock: Socket) { sock.userId.Some? && sock.userId.value != [] }

  /** The credentials `useMultiFileAuthState` loaded, and the folder they came from. */
  datatype AuthState = AuthState(folder: string)

  datatype PendingReconnect = PendingReconnect(sessionId: string, phone: string, delayMs: nat)

  datatype OutgoingMessage = OutgoingMessage(sessionId: string, jid: string, text: string)

  datatype SessionStatus = SessionStatus(connected: bool, phone: Option<string>)

  /** Why `sendMessageWithQR` rethrew: the credentials did not load, no QR code came within
      the wait, a Telegram reply or photo failed, or the database row was not saved. */
  datatype CreateError = AuthStateFailed | QrTimeout | ReplyFailed | SaveFailed

  /** A row of the `whatsappUserbots` table. */
  datatype UserbotRow = UserbotRow(session: string, phone: string, isBan: bool, dailyCount: nat)

  /** `path.join(process.cwd(), 'whatsapp_sessions', name)`, up to the working directory. */
  function DefaultAuthFolder(sessionId: string): string { "whatsapp_sessions/" + sessionId }

  /** `updateMany({ where: { session }, data: { dailyCount: { increment: 1 } } })`: every row of
      the session counts one more message, every other row and every other column is kept. */
  function IncrementDailyCount(rows: seq<UserbotRow>, sessionId: string): (r: seq<UserbotRow>)
    ensures |r| == |rows|
    ensures forall k :: 0 <= k < |r| ==>
              && r[k].session == rows[k].session && r[k].phone == rows[k].phone && r[k].isBan == rows[k].isBan
              && r[k].dailyCount == rows[k].dailyCount + (if rows[k].session == sessionId then 1 else 0)
  {
    seq(|rows|, k requires 0 <= k < |rows| =>
      if rows[k].session == sessionId then rows[k].(dailyCount := rows[k].dailyCount + 1) else rows[k])
  }

  /** `deleteMany({ where: { session } })`: the rows of every other session, each as often as
      before, in their order. */
  function DeleteRows(rows: seq<UserbotRow>, sessionId: string): (r: seq<UserbotRow>)
    ensures forall row :: row in r <==> row in rows && row.session != sessionId
    ensures forall row :: multiset(r)[row] == if row.session == sessionId then 0 else multiset(rows)[row]
    ensures IsSubsequence(r, rows)
  {
    Filter(rows, (row: UserbotRow) => row.session != sessionId)
  }

  /** `findMany({ where: { isBan: false } })`: the unbanned rows, each as often as in the
      table, in table order. */
  function ActiveRows(rows: seq<UserbotRow>): (r: seq<UserbotRow>)
    ensures forall row :: row in r <==> row in rows && !row.isBan
    ensures forall row :: multiset(r)[row] == if row.isBan then 0 else multiset(rows)[row]
    ensures IsSubsequence(r, rows)
  {
    Filter(rows, (row: UserbotRow) => !row.isBan)
  }

  /** The `sendMessageWithQR` outcome: the first step that failed, or the new session's name. */
  function QrOutcome(phone: string, now: nat, authStateLoads: bool, qrArrives: bool, repliesSent: bool,
                     createOk: bool): (r: Result<string, CreateError>)
    ensures r.Ok? <==> authStateLoads && qrArrives && repliesSent && createOk
    ensures r.Ok? ==> r.value == "whatsapp_" + Digits(phone) + "_" + NatToString(now)
    ensures r == Err(ReplyFailed) <==> authStateLoads && qrArrives && !repliesSent
    ensures r == Err(SaveFailed) <==> authStateLoads && qrArrives && repliesSent && !createOk
  {
    if !authStateLoads then Err(AuthStateFailed)
    else if !qrArrives then Err(QrTimeout)
    else if !repliesSent then Err(ReplyFailed)
    else if !createOk then Err(SaveFailed)
    else Ok("whatsapp_" + Digits(phone) + "_" + NatToString(now))
  }

  class Registry {
    var sessions: map<string, Socket>
    var sessionStates: map<string, AuthState>
    var authFolders: map<string, string>
    /** The folders present on disk. */
    var folders: set<string>
    /** The `whatsappUserbots` table. */
    var rows: seq<UserbotRow>
    /** Reconnects scheduled by close events, oldest first. */
    var pendingReconnects: seq<PendingReconnect>
    /** Messages handed to a connected socket, oldest first. */
    var outbox: seq<OutgoingMessage>

    /** Every registered socket was built from credentials that were loaded for it. */
    ghost predicate Valid()
      reads this
    {
      sessions.Keys <= sessionStates.Keys
    }

    constructor (existingFolders: set<string>, table: seq<UserbotRow>)
      ensures Valid()
      ensures sessions == map[] && sessionStates == map[] && authFolders == map[]
      ensures folders == existingFolders && rows == table
      ensures pendingReconnects == [] && outbox == []
    {
      sessions, sessionStates, authFolders := map[], map[], map[];
      folders, rows := existingFolders, table;
      pendingReconnects, outbox := [], [];
    }

    /** `checkConnection`: a socket is registered under the id and it has a user id. The
        methods below state how each one changes it. */
    function CheckConnection(sessionId: string): bool
      reads this
    {
      sessionId in sessions && IsConnected(sessions[sessionId])
    }

    /** `getSessionStatus`; its `connected` flag agrees with `checkConnection`, and the phone
        reported is the socket's user id. */
    function GetSessionStatus(sessionId: string): (r: SessionStatus)
      reads this
      ensures r.connected == CheckConnection(sessionId)
      ensures r.phone == if sessionId in sessions then sessions[sessionId].userId else None
    {
      if sessionId !in sessions then SessionStatus(false, None)
      else
        var sock := sessions[sessionId];
        SessionStatus(IsConnected(sock), sock.userId)
    }

    /** `getActiveSessions`: the non-banned rows, each as often as in the table and in table
        order, or none when the query fails. */
    function GetActiveSessions(queryOk: bool): (r: seq<UserbotRow>)
      reads this
      ensures forall row :: row in r ==> row in rows && !row.isBan
      ensures queryOk ==> forall row :: row in rows && !row.isBan ==> row in r
      ensures queryOk ==> forall row :: multiset(r)[row] == if row.isBan then 0 else multiset(rows)[row]
      ensures queryOk ==> IsSubsequence(r, rows)
      ensures !queryOk ==> r == []
    {
      if queryOk then ActiveRows(rows) else []
    }

    /** `connectSession`: with its auth folder on disk and credentials loaded, the new socket
        replaces whatever was registered under the id; otherwise nothing changes. */
    method ConnectSession(sessionId: string, authStateLoads: bool, sock: Socket) returns (ok: bool)
      requires Valid()
      modifies this
      ensures Valid()
      ensures var folder := if sessionId in old(authFolders) && old(authFolders)[sessionId] != []
                            then old(authFolders)[sessionId] else DefaultAuthFolder(sessionId);
              && (ok <==> folder in folders && authStateLoads)
              && (ok ==> sessionStates == old(sessionStates)[sessionId := AuthState(folder)])
      ensures ok ==> sessions == old(sessions)[sessionId := sock]
      ensures !ok ==> sessions == old(sessions) && sessionStates == old(sessionStates)
      ensures ok ==> (CheckConnection(sessionId) <==> IsConnected(sock))
      ensures !ok ==> CheckConnection(sessionId) == old(CheckConnection(sessionId))
      ensures forall id :: id != sessionId ==> CheckConnection(id) == old(CheckConnection(id))
      ensures authFolders == old(authFolders) && folders == old(folders) && rows == old(rows)
      ensures pendingReconnects == old(pendingReconnects) && outbox == old(outbox)
    {
      var authFolder := if sessionId in authFolders && authFolders[sessionId] != []
                        then authFolders[sessionId] else DefaultAuthFolder(sessionId);
      if authFolder !in folders {
        return false;
      }
      if !authStateLoads {
        return false;
      }
      sessionStates := sessionStates[sessionId := AuthState(authFolder)];
      sessions := sessions[sessionId := sock];
      return true;
    }

    /** What `createNewSession` leaves behind under `name`: the folder and its entry always, the
        credentials and the socket once the credentials load; nothing else in the registry. */
    twostate predicate SessionRegistered(name: string, authStateLoads: bool, sock: Socket)
      reads this
    {
      && authFolders == old(authFolders)[name := DefaultAuthFolder(name)]
      && folders == old(folders) + {DefaultAuthFolder(name)}
      && (authStateLoads ==> sessions == old(sessions)[name := sock]
                             && sessionStates == old(sessionStates)[name := AuthState(DefaultAuthFolder(name))])
      && (!authStateLoads ==> sessions == old(sessions) && sessionStates == old(sessionStates))
      && pendingReconnects == old(pendingReconnects) && outbox == old(outbox)
    }

    /** `createNewSession`: registers a folder named after the phone digits and the clock,
        then the credentials and the socket, and waits for a QR code. */
    method CreateNewSession(phone: string, now: nat, authStateLoads: bool, qrArrives: bool, sock: Socket)
      returns (r: Result<string, CreateError>)
      requires Valid()
      modifies this
      ensures Valid()
      ensures var name := "whatsapp_" + Digits(phone) + "_" + NatToString(now);
              && SessionRegistered(name, authStateLoads, sock)
              && r == (if !authStateLoads then Err(AuthStateFailed) else if qrArrives then Ok(name) else Err(QrTimeout))
      ensures rows == old(rows)
    {
      var sessionFolderName := "whatsapp_" + Digits(phone) + "_" + NatToString(now);
      var authFolder := DefaultAuthFolder(sessionFolderName);
      folders := folders + {authFolder};
      authFolders := authFolders[sessionFolderName := authFolder];
      if !authStateLoads {
        return Err(AuthStateFailed);
      }
      sessionStates := sessionStates[sessionFolderName := AuthState(authFolder)];
      sessions := sessions[sessionFolderName := sock];
      if !qrArrives {
        return Err(QrTimeout);
      }
      return Ok(sessionFolderName);
    }

    /** `saveWhatsappSession`: appends a fresh, unbanned row with a zero daily count. */
    method SaveWhatsappSession(sessionId: string, phone: string, createOk: bool) returns (ok: bool)
      modifies this`rows
      ensures ok == createOk
      ensures rows == if ok then old(rows) + [UserbotRow(sessionId, phone, false, 0)] else old(rows)
    {
      if !createOk {
        return false;
      }
      rows := rows + [UserbotRow(sessionId, phone, false, 0)];
      return true;
    }

    /** `sendMessageWithQR`: a new session, the QR code sent to the Telegram chat, then its
        database row; the first failure is rethrown and skips the steps after it. */
    method SendMessageWithQr(phone: string, now: nat, authStateLoads: bool, qrArrives: bool, sock: Socket,
                             repliesSent: bool, createOk: bool)
      returns (r: Result<string, CreateError>)
      requires Valid()
      modifies this
      ensures Valid()
      ensures r == QrOutcome(phone, now, authStateLoads, qrArrives, repliesSent, createOk)
      ensures SessionRegistered("whatsapp_" + Digits(phone) + "_" + NatToString(now), authStateLoads, sock)
      ensures rows == if r.Ok? then old(rows) + [UserbotRow(r.value, phone, false, 0)] else old(rows)
      ensures r.Ok? ==> r.value in sessions
    {
      r := CreateNewSession(phone, now, authStateLoads, qrArrives, sock);
      if r.Err? {
        return;
      }
      if !repliesSent {
        return Err(ReplyFailed);
      }
      var saved := SaveWhatsappSession(r.value, phone, createOk);
      if !saved {
        r := Err(SaveFailed);
      }
    }

    /** The `connection.update` handler on `connection === 'close'`: schedules a reconnect in
        5 s unless the session was logged out. */
    method OnConnectionClose(sessionId: string, phone: string, statusCode: Option<int>)
      modifies this`pendingReconnects
      ensures pendingReconnects ==
                if ShouldReconnect(statusCode)
                then old(pendingReconnects) + [PendingReconnect(sessionId, phone, ReconnectDelayMs)]
                else old(pendingReconnects)
    {
      var shouldReconnect := statusCode != Some(LoggedOut);
      if shouldReconnect {
        pendingReconnects := pendingReconnects + [PendingReconnect(sessionId, phone, ReconnectDelayMs)];
      }
    }

    /** `sendMessage`: true exactly when a connected socket exists and delivery succeeds; only
        a connected socket is handed the message, addressed to the formatted JID, and only a
        delivered message increments the daily count. It never throws. */
    method SendMessage(sessionId: string, message: string, phone: string, delivers: bool, countUpdates: bool)
      returns (ok: bool)
      requires Valid()
      modifies this`outbox, this`rows
      ensures Valid()
      ensures ok <==> old(CheckConnection(sessionId)) && delivers
      ensures outbox == if old(CheckConnection(sessionId))
                        then old(outbox) + [OutgoingMessage(sessionId, FormatPhoneNumber(phone), message)]
                        else old(outbox)
      ensures rows == if ok && countUpdates then IncrementDailyCount(old(rows), sessionId) else old(rows)
    {
      if sessionId !in sessions {
        return false;
      }
      var session := sessions[sessionId];
      var formattedPhone := FormatPhoneNumber(phone);
      if !IsConnected(session) {
        return false;
      }
      outbox := outbox + [OutgoingMessage(sessionId, formattedPhone, message)];
      if !delivers {
        return false;
      }
      // incrementDailyCount logs and swallows its own failure
      if countUpdates {
        rows := IncrementDailyCount(rows, sessionId);
      }
      return true;
    }

    /** `deleteSession`: logs the socket out and forgets it, removes an existing auth folder
        and its entry, deletes the database rows; a failure returns false with the steps
        before it already done. No other key changes. */
    method DeleteSession(sessionId: string, logoutSucceeds: bool, rowsDeleted: bool) returns (ok: bool)
      requires Valid()
      modifies this`sessions, this`authFolders, this`folders, this`rows
      ensures Valid()
      ensures ok <==> (sessionId in old(sessions) ==> logoutSucceeds) && rowsDeleted
      ensures sessionId in old(sessions) && !logoutSucceeds ==>
                sessions == old(sessions) && authFolders == old(authFolders) && folders == old(folders)
                && rows == old(rows)
      ensures (sessionId in old(sessions) ==> logoutSucceeds) ==>
                && sessions == old(sessions) - {sessionId}
                && (if sessionId in old(authFolders) && old(authFolders)[sessionId] != []
                       && old(authFolders)[sessionId] in old(folders)
                    then authFolders == old(authFolders) - {sessionId}
                         && folders == old(folders) - {old(authFolders)[sessionId]}
                    else authFolders == old(authFolders) && folders == old(folders))
                && rows == if rowsDeleted then DeleteRows(old(rows), sessionId) else old(rows)
      ensures (sessionId in old(sessions) ==> logoutSucceeds) ==> !CheckConnection(sessionId)
      ensures forall id :: id != sessionId ==> CheckConnection(id) == old(CheckConnection(id))
    {
      if sessionId in sessions {
        if !logoutSucceeds {
          return false;
        }
        sessions := sessions - {sessionId};
      }
      if sessionId in authFolders && authFolders[sessionId] != [] && authFolders[sessionId] in folders {
        folders := folders - {authFolders[sessionId]};
        authFolders := authFolders - {sessionId};
      }
      if !rowsDeleted {
        return false;
      }
      rows := DeleteRows(rows, sessionId);
      return true;
    }
  }

  /** A deleted session is gone from the table, and incrementing its count afterwards changes
      nothing. */
  lemma {:induction false} DeletedSessionNotCounted(rows: seq<UserbotRow>, sessionId: string)
    ensures IncrementDailyCount(DeleteRows(rows, sessionId), sessionId) == DeleteRows(rows, sessionId)
  {
    var d := DeleteRows(rows, sessionId);
    var r := IncrementDailyCount(d, sessionId);
    forall k | 0 <= k < |d| ensures r[k] == d[k] {
      assert d[k] in d;
    }
  }
}
