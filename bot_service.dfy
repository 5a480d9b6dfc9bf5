/**
 * `BotService` (src/bot/bot.service.ts): the cache-then-database user lookup that guards every
 * menu action, the line filtering of an uploaded text file, and the gate that starts both
 * mailings after a spreadsheet upload.
 *
 * Redis is a map from key to cached value, the tables are sequences, and what the file
 * download and the spreadsheet reader return is an input. The two mailings are recorded as
 * the arguments they are started with.
 */
module BotService {
  import opened Wrappers
  import opened Strings
  import Users

  // ---------------------------------------------------------------------------
  // getUser

  datatype User = User(id: int, telegramId: string)

  /** What Redis holds under a key: an empty string (falsy), a JSON text that parses to a user
      or to `null`, or a text `JSON.parse` rejects. */
  datatype CachedValue = Blank | Json(user: Option<User>) | Malformed

  datatype GetUserError = ParseError

  /** The result of `getUser`, and whether the database was asked. */
  datatype Lookup = Lookup(user: Result<Option<User>, GetUserError>, queriedDb: bool)

  function CacheKey(id: string): string { "user:" + id }

  /** The index of the first row whose `telegramId` is `id`, or `|users|` when there is none. */
  function FirstMatch(users: seq<User>, id: string): (k: nat)
    ensures k <= |users|
    ensures k < |users| ==> users[k].telegramId == id
    ensures forall j :: 0 <= j < k ==> users[j].telegramId != id
  {
    if users == [] then 0
    else if users[0].telegramId == id then 0
    else 1 + FirstMatch(users[1..], id)
  }

  /** `findFirst({ where: { telegramId: id } })`: the first matching row, if any. */
  function FindFirst(users: seq<User>, id: string): (r: Option<User>)
    ensures r.Some? ==> r.value in users && r.value.telegramId == id
    ensures r.Some? ==> exists k :: 0 <= k < |users| && r.value == users[k]
                                    && forall j :: 0 <= j < k ==> users[j].telegramId != id
    ensures r.None? <==> forall u :: u in users ==> u.telegramId != id
  {
    var k := FirstMatch(users, id);
    if k < |users| then Some(users[k]) else None
  }

  /** `getUser`: a truthy cache entry answers the lookup (parsed, or a parse error); only a
      missing or empty entry sends the query to the database. */
  function GetUser(id: string, cache: map<string, CachedValue>, users: seq<User>): (r: Lookup)
    ensures r.queriedDb <==> CacheKey(id) !in cache || cache[CacheKey(id)] == Blank
    ensures r.queriedDb ==> r.user == Ok(FindFirst(users, id))
    ensures !r.queriedDb ==> r.user == match cache[CacheKey(id)] {
                                         case Json(u) => Ok(u)
                                         case _ => Err(ParseError)
                                       }
  {
    var key := CacheKey(id);
    if key in cache && cache[key] != Blank then
      match cache[key]
      case Json(u) => Lookup(Ok(u), false)
      case _ => Lookup(Err(ParseError), false)
    else Lookup(Ok(FindFirst(users, id)), true)
  }

  /** A cached user is returned even when the database has none, or another one. */
  lemma CacheShadowsDatabase(id: string, cache: map<string, CachedValue>, users: seq<User>, u: User)
    requires CacheKey(id) in cache && cache[CacheKey(id)] == Json(Some(u))
    ensures GetUser(id, cache, users) == Lookup(Ok(Some(u)), false)
  {
  }

  /** `ctx.from?.id.toString() || ''` */
  function SenderKey(sender: Option<nat>): string {
    match sender
    case Some(n) => NatToString(n)
    case None => []
  }

  datatype Refusal = LookupFailed | NotRegistered | NoMessage

  /** The guard of every menu action: the lookup for the sender found a user. A cache entry
      that does not parse makes the action throw. */
  function Authorize(sender: Option<nat>, cache: map<string, CachedValue>, users: seq<User>): (r: Result<User, Refusal>)
    ensures r.Ok? <==> GetUser(SenderKey(sender), cache, users).user.Ok? && GetUser(SenderKey(sender), cache, users).user.value.Some?
    ensures r.Ok? ==> GetUser(SenderKey(sender), cache, users).user == Ok(Some(r.value))
    ensures r == Err(LookupFailed) <==> GetUser(SenderKey(sender), cache, users).user.Err?
    ensures r != Err(NoMessage)
  {
    var lookup := GetUser(SenderKey(sender), cache, users);
    match lookup.user
    case Err(_) => Err(LookupFailed)
    case Ok(None) => Err(NotRegistered)
    case Ok(Some(u)) => Ok(u)
  }

  // ---------------------------------------------------------------------------
  // uploadLeadsTxt

  /** The non-blank lines, in order (`filter(text => text.trim() !== '')`). */
  function NonBlank(lines: seq<string>): (r: seq<string>)
    ensures forall t :: t in r <==> t in lines && !IsBlank(t)
    ensures forall t :: multiset(r)[t] == if IsBlank(t) then 0 else multiset(lines)[t]
    ensures IsSubsequence(r, lines)
  {
    Filter(lines, t => !IsBlank(t))
  }

  /** The texts `uploadLeadsTxt` stores for a file: its '\n'-separated lines that are not
      blank, untrimmed and in order. */
  function TextsOfFile(file: string): (r: seq<string>)
    ensures forall t :: t in r ==> '\n' !in t && !IsBlank(t)
    ensures forall t :: multiset(r)[t] == if IsBlank(t) then 0 else multiset(Split(file, '\n'))[t]
    ensures IsSubsequence(r, Split(file, '\n'))
  {
    NonBlank(Split(file, '\n'))
  }

  /** Nothing of the file is lost but blank lines: every non-blank line is stored, as often as
      the file has it, and the stored texts together with the dropped lines make up the file
      again. */
  lemma TextsOfFileComplete(file: string)
    ensures forall line :: line in Split(file, '\n') && !IsBlank(line) ==> line in TextsOfFile(file)
    ensures forall line :: !IsBlank(line) ==> multiset(TextsOfFile(file))[line] == multiset(Split(file, '\n'))[line]
    ensures Join(Split(file, '\n'), '\n') == file
  {
    JoinSplit(file, '\n');
  }

  /** `uploadLeadsTxt`, up to the download: the texts stored, or why nothing was. */
  function UploadLeadsTxt(sender: Option<nat>, cache: map<string, CachedValue>, users: seq<User>,
                          hasMessage: bool, file: string): (r: Result<seq<string>, Refusal>)
    ensures Authorize(sender, cache, users).Err? ==> r == Err(Authorize(sender, cache, users).error)
    ensures Authorize(sender, cache, users).Ok? && !hasMessage ==> r == Err(NoMessage)
    ensures Authorize(sender, cache, users).Ok? && hasMessage ==> r == Ok(TextsOfFile(file))
  {
    match Authorize(sender, cache, users)
    case Err(e) => Err(e)
    case Ok(_) => if !hasMessage then Err(NoMessage) else Ok(TextsOfFile(file))
  }

  // ---------------------------------------------------------------------------
  // uploadLeads

  /** The arguments the two mailings are started with. */
  datatype MailingStart = MailingStart(
    telegramClients: seq<Users.ClientRow>,
    telegramMessages: seq<string>,
    whatsappMessages: seq<string>,
    whatsappClients: seq<Users.ClientRow>)

  datatype UploadLeadsResult = UploadLeadsResult(saved: seq<Users.SavedClient>, mailings: Option<MailingStart>)

  /** `uploadLeads`, up to the download: it saves the rows as processed clients of the sender
      and, when the texts table is not empty, starts both mailings with the same rows and the
      same texts. */
  function UploadLeads(sender: Option<nat>, cache: map<string, CachedValue>, users: seq<User>, hasMessage: bool,
                       clients: seq<Users.ClientRow>, texts: seq<string>): (r: Result<UploadLeadsResult, Refusal>)
    ensures Authorize(sender, cache, users).Err? ==> r == Err(Authorize(sender, cache, users).error)
    ensures Authorize(sender, cache, users).Ok? && !hasMessage ==> r == Err(NoMessage)
    ensures r.Ok? <==> Authorize(sender, cache, users).Ok? && hasMessage
    ensures r.Ok? ==> r.value.saved == Users.SaveClients(clients, sender.GetOr(0), Some(true))
    ensures r.Ok? ==> (r.value.mailings.Some? <==> texts != [])
    ensures r.Ok? && r.value.mailings.Some? ==>
              var m := r.value.mailings.value;
              m.telegramMessages == texts && m.whatsappMessages == texts
              && m.telegramClients == clients && m.whatsappClients == clients
  {
    match Authorize(sender, cache, users)
    case Err(e) => Err(e)
    case Ok(_) =>
      if !hasMessage then Err(NoMessage)
      else
        var saved := Users.SaveClients(clients, sender.GetOr(0), Some(true));
        var mailings := if |texts| > 0 then Some(MailingStart(clients, texts, texts, clients)) else None;
        Ok(UploadLeadsResult(saved, mailings))
  }

  /** Every client saved by an upload is marked processed and belongs to the sender. */
  lemma UploadedClientsProcessed(sender: Option<nat>, cache: map<string, CachedValue>, users: seq<User>,
                                 clients: seq<Users.ClientRow>, texts: seq<string>)
    requires Authorize(sender, cache, users).Ok?
    ensures var r := UploadLeads(sender, cache, users, true, clients, texts);
            r.Ok? && forall k :: 0 <= k < |r.value.saved| ==>
              r.value.saved[k].proccesed && r.value.saved[k].userId == sender.GetOr(0)
  {
  }
}
