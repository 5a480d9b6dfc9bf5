/**
 * `TelegramService` (src/telegram/telegram.service.ts): phone normalisation, the choice of
 * how a recipient is looked up, and one message send through a fresh client. The gramjs
 * client is not modelled; what it does for a send is an input (`Network`) and the calls the
 * service makes on it are recorded as a list of `ClientAction`s.
 */
module TelegramService {
  import opened Wrappers
  import opened Strings

  /** The errors the service throws, one per `throw` site. */
  datatype TelegramError =
    | PhoneOrUsernameRequired   // "phone/username is required"
    | UsernameEmpty             // "Username is empty"
    | PhoneInvalid              // "Phone is empty or invalid"

  // ---------------------------------------------------------------------------
  // normalizePhone

  /** `normalizePhone`: '+' followed by the digits of the input; an input without digits throws. */
  function NormalizePhone(raw: string): (r: Result<string, TelegramError>)
    ensures r.Ok? <==> HasDigit(raw)
    ensures r.Ok? ==> r.value == "+" + Digits(raw)
    ensures r.Err? ==> r.error == PhoneInvalid
  {
    var digits := Digits(raw);
    DigitsEmptyIff(raw);
    DigitsNeverStartWithPlus(raw);
    if digits == [] then Err(PhoneInvalid)
    else if StartsWith(digits, "+") then Ok(digits)
    else Ok("+" + digits)
  }

  /** The branch of `normalizePhone` that keeps a leading '+' cannot be taken: the digit
      string it tests never starts with '+'. */
  lemma DigitsNeverStartWithPlus(raw: string)
    ensures !StartsWith(Digits(raw), "+")
  {
    var d := Digits(raw);
    if |d| > 0 {
      assert IsDigit(d[0]);
    }
  }

  /** Normalising a normalised phone gives it back unchanged. */
  lemma {:induction false} NormalizePhoneIdempotent(raw: string)
    requires NormalizePhone(raw).Ok?
    ensures NormalizePhone(NormalizePhone(raw).value) == NormalizePhone(raw)
  {
    var d := Digits(raw);
    DigitsOfDigits(d);
    assert ("+" + d)[1..] == d;
    assert Digits("+" + d) == Digits(d);
    assert HasDigit("+" + d) by {
      DigitsEmptyIff(raw);
      assert IsDigit(("+" + d)[1]);
    }
  }

  // ---------------------------------------------------------------------------
  // resolveEntity

  /** How a recipient will be looked up: by username (`getEntity`) or by phone (`ImportContacts`). */
  datatype EntityQuery = ByUsername(username: string) | ByPhone(phone: string)

  /** The regular expression `/[a-zA-Z_]/` finds a match in `s`. */
  predicate HasUsernameChar(s: string) {
    exists i :: 0 <= i < |s| && (IsAsciiLetter(s[i]) || s[i] == '_')
  }

  /** `resolveEntity`, up to the remote lookup: which query is made, or which error is thrown. */
  function ResolveEntity(input: string): (r: Result<EntityQuery, TelegramError>)
    ensures input == [] ==> r == Err(PhoneOrUsernameRequired)
    ensures input != [] && input[0] == '@' ==>
              r == if Trim(input[1..]) == [] then Err(UsernameEmpty) else Ok(ByUsername(Trim(input[1..])))
    ensures input != [] && input[0] != '@' && HasUsernameChar(input) ==> r == Ok(ByUsername(Trim(input)))
    ensures input != [] && input[0] != '@' && !HasUsernameChar(input) ==>
              r == if HasDigit(input) then Ok(ByPhone("+" + Digits(input))) else Err(PhoneInvalid)
    ensures r.Ok? && r.value.ByUsername? ==> r.value.username != []
  {
    if input == [] then Err(PhoneOrUsernameRequired)
    else if input[0] == '@' then
      var username := Trim(input[1..]);
      if username == [] then Err(UsernameEmpty) else Ok(ByUsername(username))
    else if HasUsernameChar(input) then
      UsernameCharSurvivesTrim(input);
      Ok(ByUsername(Trim(input)))
    else
      match NormalizePhone(input)
      case Ok(phone) => Ok(ByPhone(phone))
      case Err(e) => Err(e)
  }

  /** A letter or '_' is not whitespace, so trimming the input cannot leave it empty. */
  lemma UsernameCharSurvivesTrim(s: string)
    requires HasUsernameChar(s)
    ensures Trim(s) != []
  {
    var k :| 0 <= k < |s| && (IsAsciiLetter(s[k]) || s[k] == '_');
    NonWhitespaceSurvivesTrim(s, k);
  }

  // ---------------------------------------------------------------------------
  // sendMessage

  /** What the remote side does for one send: whether connecting succeeds, whether the
      recipient is found (`getEntity` or `ImportContacts`), and whether delivery succeeds. */
  datatype Network = Network(connects: bool, recipientFound: bool, delivers: bool)

  /** The calls `sendMessage` makes on the gramjs client, in order. */
  datatype ClientAction =
    | CreateClient
    | Connect
    | Lookup(query: EntityQuery)
    | Deliver(message: string)
    | Disconnect

  datatype SendError =
    | ApiCredentialsMissing   // API_ID or API_HASH unset
    | EmptyMessage
    | ConnectFailed
    | RecipientNotFound       // resolveEntity threw, or the lookup found nobody
    | DeliveryFailed

  datatype SendReport = SendReport(result: Result<EntityQuery, SendError>, actions: seq<ClientAction>)

  /** A message counts as present when it is defined and not blank (`message?.trim()`). */
  predicate HasText(message: Option<string>) {
    message.Some? && !IsBlank(message.value)
  }

  /** `sendMessage`: the two guards, then connect, resolve, deliver, and always disconnect. */
  function SendMessage(apiConfigured: bool, message: Option<string>, target: string, net: Network): (r: SendReport)
    ensures !apiConfigured ==> r == SendReport(Err(ApiCredentialsMissing), [])
    ensures apiConfigured && !HasText(message) ==> r == SendReport(Err(EmptyMessage), [])
    ensures r.actions != [] ==> r.actions[0] == CreateClient && r.actions[|r.actions| - 1] == Disconnect
    ensures r.result.Ok? <==>
              apiConfigured && HasText(message) && net.connects && ResolveEntity(target).Ok?
              && net.recipientFound && net.delivers
    ensures r.result.Ok? ==> ResolveEntity(target) == Ok(r.result.value)
    ensures r.result.Ok? ==> r.actions == [CreateClient, Connect, Lookup(r.result.value), Deliver(message.value), Disconnect]
  {
    if !apiConfigured then SendReport(Err(ApiCredentialsMissing), [])
    else if message.None? || Trim(message.value) == [] then SendReport(Err(EmptyMessage), [])
    else if !net.connects then SendReport(Err(ConnectFailed), [CreateClient, Connect, Disconnect])
    else
      match ResolveEntity(target)
      case Err(_) => SendReport(Err(RecipientNotFound), [CreateClient, Connect, Disconnect])
      case Ok(query) =>
        if !net.recipientFound then
          SendReport(Err(RecipientNotFound), [CreateClient, Connect, Lookup(query), Disconnect])
        else
          var actions := [CreateClient, Connect, Lookup(query), Deliver(message.value), Disconnect];
          SendReport(if net.delivers then Ok(query) else Err(DeliveryFailed), actions)
  }

  /** An empty or whitespace-only message is refused before any client exists. */
  lemma BlankMessageCreatesNoClient(message: string, target: string, net: Network)
    requires IsBlank(message)
    ensures SendMessage(true, Some(message), target, net).actions == []
    ensures SendMessage(true, Some(message), target, net).result == Err(EmptyMessage)
  {
  }
}
