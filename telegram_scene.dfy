/**
 * The `telegram_login` scene (src/bot/scene/telegram-create-bot.scene.ts): a dialog that
 * collects a phone number, a confirmation code and an optional two-factor password, signs in
 * through `TelegramService`, and stores the session string.
 *
 * The Telegraf session slot `telegramLogin` is the field `login`, whether the scene is active
 * is `inScene`, and the saved session strings are `savedSessions`. Replies and keyboards are
 * not modelled; what `sendCode`, `signIn`, `getSessionString` and `saveTelegramSession` do is
 * an input to each handler.
 */
module TelegramLoginScene {
  import opened Wrappers
  import opened Strings
  import TelegramService

  datatype Step = PhoneInput | CodeInput | PasswordInput | Confirmation

  /** `TelegramLoginSession`; `user` is whatever the scene session carried. */
  datatype LoginSession = LoginSession(
    step: Step,
    phoneNumber: Option<string>,
    code: Option<string>,
    password: Option<string>,
    phoneCodeHash: Option<string>,
    user: Option<string>)

  /** The `{}` the scene starts from, once its step is set. */
  const Fresh: LoginSession := LoginSession(PhoneInput, None, None, None, None, None)

  /** A JavaScript truthiness test on an optional string. */
  predicate Truthy(o: Option<string>) { o.Some? && o.value != [] }

  // ---------------------------------------------------------------------------
  // Input validation

  /** `/^\+[1-9]\d{1,14}$/.test(s)` */
  predicate MatchesPhonePattern(s: string) {
    3 <= |s| <= 16 && s[0] == '+' && '1' <= s[1] <= '9' && AllDigits(s[2..])
  }

  /** `isValidPhoneNumber`: the pattern, and a length in [10, 15]. The length test is tighter
      than the pattern's, so the result is '+', a non-zero digit, and 8 to 13 more digits. */
  function IsValidPhoneNumber(phone: string): (r: bool)
    ensures r <==> 10 <= |phone| <= 15 && phone[0] == '+' && phone[1] != '0' && AllDigits(phone[1..])
  {
    assert |phone| >= 2 ==> phone[1..] == [phone[1]] + phone[2..];
    MatchesPhonePattern(phone) && |phone| >= 10 && |phone| <= 15
  }

  /** A phone the scene accepts is already in the form `TelegramService.normalizePhone`
      produces: normalising it would change nothing. The scene hands `sendCode` the raw text
      and does not call `normalizePhone` itself. */
  lemma ValidPhoneIsNormalized(phone: string)
    requires IsValidPhoneNumber(phone)
    ensures TelegramService.NormalizePhone(phone) == Ok(phone)
  {
    DigitsOfDigits(phone[1..]);
    assert Digits(phone) == Digits(phone[1..]);
    assert IsDigit(phone[1]);
    assert "+" + phone[1..] == phone;
  }

  /** The code test: 4 to 6 characters, all decimal digits (`/^\d+$/`). */
  predicate IsValidCode(text: string) { 4 <= |text| <= 6 && AllDigits(text) }

  /** The cancel test run before every step: the lower-cased text mentions "отмена" or "cancel". */
  predicate IsCancelText(text: string) {
    Contains(ToLower(text), "отмена") || Contains(ToLower(text), "cancel")
  }

  /** The skip test of the password step. */
  predicate IsSkipText(text: string) {
    text == "skip" || Contains(ToLower(text), "пропустить")
  }

  /** A string made only of digits and '+' never mentions a cancel word. */
  lemma {:induction false} DigitsAndPlusNeverCancel(text: string)
    requires forall i :: 0 <= i < |text| ==> IsDigit(text[i]) || text[i] == '+'
    ensures !IsCancelText(text)
  {
    var lower := ToLower(text);
    forall i | 0 <= i < |lower| ensures IsDigit(lower[i]) || lower[i] == '+' {
      assert lower[i] == LowerChar(text[i]);
    }
    NotContainsWithoutFirstChar(lower, "отмена");
    NotContainsWithoutFirstChar(lower, "cancel");
  }

  /** Neither an acceptable phone nor an acceptable code can be mistaken for a cancel request
      or for "/start". */
  lemma AcceptedInputIsNotCancel(text: string)
    ensures IsValidPhoneNumber(text) ==> !IsCancelText(text) && text != "/start"
    ensures IsValidCode(text) ==> !IsCancelText(text) && text != "/start"
  {
    if IsValidPhoneNumber(text) {
      forall i | 0 <= i < |text| ensures IsDigit(text[i]) || text[i] == '+' {
        if i > 0 { assert text[1..][i - 1] == text[i]; }
      }
      DigitsAndPlusNeverCancel(text);
      assert text[0] != '/';
    }
    if IsValidCode(text) {
      DigitsAndPlusNeverCancel(text);
      assert IsDigit(text[0]);
    }
  }

  // ---------------------------------------------------------------------------
  // Sign-in errors

  /** The step a failed `signIn` leads to, by the first marker its message mentions. */
  function SignInErrorStep(message: string): (s: Step)
    ensures s == PasswordInput <==> Contains(message, "SESSION_PASSWORD_NEEDED")
    ensures s == PhoneInput <==>
              !Contains(message, "SESSION_PASSWORD_NEEDED") && !Contains(message, "PHONE_CODE_INVALID")
              && Contains(message, "PHONE_CODE_EXPIRED")
    ensures s == CodeInput <==>
              !Contains(message, "SESSION_PASSWORD_NEEDED")
              && (Contains(message, "PHONE_CODE_INVALID") || !Contains(message, "PHONE_CODE_EXPIRED"))
    ensures s != Confirmation
  {
    if Contains(message, "SESSION_PASSWORD_NEEDED") then PasswordInput
    else if Contains(message, "PHONE_CODE_INVALID") then CodeInput
    else if Contains(message, "PHONE_CODE_EXPIRED") then PhoneInput
    else CodeInput
  }

  /** The error thrown when the phone, code or code hash is missing. */
  const MissingDataMessage: string := "Отсутствуют необходимые данные для входа"

  /** A string in which the first character of `sub` never appears does not contain `sub`. */
  lemma NotContainsWithoutFirstChar(s: string, sub: string)
    requires sub != [] && forall i :: 0 <= i < |s| ==> s[i] != sub[0]
    ensures !Contains(s, sub)
  {
    forall i: nat ensures !OccursAt(s, sub, i) {
      if i + |sub| <= |s| {
        assert s[i..i + |sub|][0] == s[i];
      }
    }
    ContainsIffOccurs(s, sub);
  }

  /** A message without upper-case Latin letters mentions none of the markers, so it sends
      the dialog back to the code step. */
  lemma NoMarkerRetriesCode(message: string)
    requires forall i :: 0 <= i < |message| ==> !('A' <= message[i] <= 'Z')
    ensures SignInErrorStep(message) == CodeInput
  {
    NotContainsWithoutFirstChar(message, "SESSION_PASSWORD_NEEDED");
    NotContainsWithoutFirstChar(message, "PHONE_CODE_INVALID");
    NotContainsWithoutFirstChar(message, "PHONE_CODE_EXPIRED");
  }

  /** Missing sign-in data sends the dialog back to the code step. */
  lemma MissingDataRetriesCode()
    ensures SignInErrorStep(MissingDataMessage) == CodeInput
  {
    NoMarkerRetriesCode(MissingDataMessage);
  }

  // ---------------------------------------------------------------------------
  // The remote calls, as outcomes

  datatype SendCodeOutcome = CodeSent(phoneCodeHash: Option<string>) | SendCodeThrew

  /** `signIn` resolved (with or without a user in the result) or threw with a message. */
  datatype SignInOutcome = SignedIn(hasUser: bool) | SignInThrew(message: string)

  /** What `completeLogin` stores: the session string, when one is returned and saving works. */
  function SavedBy(sessionString: Option<string>, saveOk: bool): (r: seq<string>)
    ensures |r| <= 1
    ensures r != [] <==> Truthy(sessionString) && saveOk
    ensures r != [] ==> r[0] == sessionString.value
  {
    if Truthy(sessionString) && saveOk then [sessionString.value] else []
  }

  // ---------------------------------------------------------------------------
  // The scene

  class Scene {
    var inScene: bool
    var login: Option<LoginSession>
    var savedSessions: seq<string>

    /** While the scene is active its login session exists. */
    ghost predicate Valid()
      reads this
    {
      inScene ==> login.Some?
    }

    constructor ()
      ensures Valid() && !inScene && login == None && savedSessions == []
    {
      inScene, login, savedSessions := false, None, [];
    }

    /** `onSceneEnter`: creates the login session if there is none, keeps its other fields,
        resets the step to phone input and copies the scene's user. */
    method OnSceneEnter(sceneUser: Option<string>)
      modifies this`inScene, this`login
      ensures Valid() && inScene
      ensures var base := if old(login).Some? then old(login).value else Fresh;
              login == Some(base.(step := PhoneInput, user := if sceneUser.Some? then sceneUser else base.user))
    {
      var session := if login.Some? then login.value else Fresh;
      session := session.(step := PhoneInput);
      if sceneUser.Some? {
        session := session.(user := sceneUser);
      }
      login := Some(session);
      inScene := true;
    }

    /** `cleanupSession`: deletes the login session. */
    method CleanupSession()
      modifies this`login
      ensures login == None
    {
      login := None;
    }

    /** `completeLogin`: stores the session string when there is one and saving works, then,
        whatever happened, deletes the login session and leaves. */
    method CompleteLogin(sessionString: Option<string>, saveOk: bool)
      modifies this
      ensures Valid() && !inScene && login == None
      ensures savedSessions == old(savedSessions) + SavedBy(sessionString, saveOk)
    {
      if Truthy(sessionString) && saveOk {
        savedSessions := savedSessions + [sessionString.value];
      }
      CleanupSession();
      inScene := false;
    }

    /** The phone step: a valid phone is stored and a code requested; a failed request goes
        back to the phone step; an invalid phone changes nothing. */
    method OnPhoneText(text: string, sendCode: SendCodeOutcome)
      requires login.Some? && login.value.step == PhoneInput
      modifies this`login
      ensures var s := old(login).value;
              login == if !IsValidPhoneNumber(text) then old(login)
                       else Some(s.(phoneNumber := Some(text),
                                    step := if sendCode.SendCodeThrew? then PhoneInput else CodeInput,
                                    phoneCodeHash := if sendCode.CodeSent? && Truthy(sendCode.phoneCodeHash)
                                                     then sendCode.phoneCodeHash else s.phoneCodeHash))
    {
      var session := login.value;
      if IsValidPhoneNumber(text) {
        session := session.(phoneNumber := Some(text), step := CodeInput);
        match sendCode {
          case CodeSent(hash) =>
            if Truthy(hash) {
              session := session.(phoneCodeHash := hash);
            }
          case SendCodeThrew =>
            session := session.(step := PhoneInput);
        }
        login := Some(session);
      }
    }

    /** The code step: anything but 4 to 6 digits changes nothing. A code is stored and, with
        the phone and code hash present, sent to `signIn`: a user completes the login, no user
        asks for the password, an error picks the step by its message. Missing data counts as
        an error. */
    method OnCodeText(text: string, signIn: SignInOutcome, sessionString: Option<string>, saveOk: bool)
      requires Valid() && inScene && login.value.step == CodeInput
      modifies this
      ensures Valid()
      ensures !IsValidCode(text) ==> inScene && login == old(login) && savedSessions == old(savedSessions)
      ensures var s := old(login).value;
              var ready := Truthy(s.phoneNumber) && Truthy(s.phoneCodeHash);
              IsValidCode(text) ==>
                if ready && signIn == SignedIn(true) then
                  !inScene && login == None && savedSessions == old(savedSessions) + SavedBy(sessionString, saveOk)
                else
                  && inScene && savedSessions == old(savedSessions)
                  && login == Some(s.(code := Some(text),
                                      step := if !ready then CodeInput
                                              else if signIn.SignedIn? then PasswordInput
                                              else SignInErrorStep(signIn.message)))
    {
      var session := login.value;
      if |text| >= 4 && |text| <= 6 && AllDigits(text) {
        session := session.(code := Some(text));
        if Truthy(session.phoneNumber) && Truthy(session.code) && Truthy(session.phoneCodeHash) {
          match signIn {
            case SignedIn(hasUser) =>
              if hasUser {
                session := session.(step := Confirmation);
                login := Some(session);
                CompleteLogin(sessionString, saveOk);
              } else {
                session := session.(step := PasswordInput);
                login := Some(session);
              }
            case SignInThrew(message) =>
              session := session.(step := SignInErrorStep(message));
              login := Some(session);
          }
        } else {
          // the thrown message names no marker (MissingDataRetriesCode), so the error lands in
          // the code step
          session := session.(step := CodeInput);
          login := Some(session);
        }
      }
    }

    /** The password step: the password is stored unless the text asks to skip, and the login
        completes either way. */
    method OnPasswordText(text: string, sessionString: Option<string>, saveOk: bool)
      requires login.Some? && login.value.step == PasswordInput
      modifies this
      ensures Valid() && !inScene && login == None
      ensures savedSessions == old(savedSessions) + SavedBy(sessionString, saveOk)
    {
      if !IsSkipText(text) {
        login := Some(login.value.(password := Some(text)));
      }
      CompleteLogin(sessionString, saveOk);
    }

    /** `onText`. "/start" leaves the scene and keeps the login session; a cancel word deletes
        it and leaves; otherwise the current step handles the text, and the confirmation step
        ignores it. */
    method OnText(text: string, sendCode: SendCodeOutcome, signIn: SignInOutcome,
                  sessionString: Option<string>, saveOk: bool)
      requires Valid() && inScene
      modifies this
      ensures Valid()
      ensures text == "/start" ==> !inScene && login == old(login) && savedSessions == old(savedSessions)
      ensures text != "/start" && IsCancelText(text) ==>
                !inScene && login == None && savedSessions == old(savedSessions)
      ensures var s := old(login).value;
              text != "/start" && !IsCancelText(text) && s.step == PhoneInput ==>
                && inScene && savedSessions == old(savedSessions)
                && login == if !IsValidPhoneNumber(text) then old(login)
                            else Some(s.(phoneNumber := Some(text),
                                         step := if sendCode.SendCodeThrew? then PhoneInput else CodeInput,
                                         phoneCodeHash := if sendCode.CodeSent? && Truthy(sendCode.phoneCodeHash)
                                                          then sendCode.phoneCodeHash else s.phoneCodeHash))
      ensures text != "/start" && !IsCancelText(text) && old(login).value.step == CodeInput && !IsValidCode(text) ==>
                inScene && login == old(login) && savedSessions == old(savedSessions)
      ensures var s := old(login).value;
              var ready := Truthy(s.phoneNumber) && Truthy(s.phoneCodeHash);
              text != "/start" && !IsCancelText(text) && s.step == CodeInput && IsValidCode(text) ==>
                if ready && signIn == SignedIn(true) then
                  !inScene && login == None && savedSessions == old(savedSessions) + SavedBy(sessionString, saveOk)
                else
                  && inScene && savedSessions == old(savedSessions)
                  && login == Some(s.(code := Some(text),
                                      step := if !ready then CodeInput
                                              else if signIn.SignedIn? then PasswordInput
                                              else SignInErrorStep(signIn.message)))
      ensures text != "/start" && !IsCancelText(text) && old(login).value.step == PasswordInput ==>
                !inScene && login == None && savedSessions == old(savedSessions) + SavedBy(sessionString, saveOk)
      ensures text != "/start" && !IsCancelText(text) && old(login).value.step == Confirmation ==>
                inScene && login == old(login) && savedSessions == old(savedSessions)
    {
      if text == "/start" {
        inScene := false;
        return;
      }
      if Contains(ToLower(text), "отмена") || Contains(ToLower(text), "cancel") {
        CleanupSession();
        inScene := false;
        return;
      }
      match login.value.step {
        case PhoneInput => OnPhoneText(text, sendCode);
        case CodeInput => OnCodeText(text, signIn, sessionString, saveOk);
        case PasswordInput => OnPasswordText(text, sessionString, saveOk);
        case Confirmation =>
      }
    }

    /** `onCallbackQuery`: the cancel button deletes the login session and leaves; the skip
        button completes the login from whatever step; other data is ignored. */
    method OnCallbackQuery(data: string, sessionString: Option<string>, saveOk: bool)
      requires Valid() && inScene
      modifies this
      ensures Valid()
      ensures data == "cancel_telegram_login" ==>
                !inScene && login == None && savedSessions == old(savedSessions)
      ensures data == "skip_password" ==>
                !inScene && login == None && savedSessions == old(savedSessions) + SavedBy(sessionString, saveOk)
      ensures data != "cancel_telegram_login" && data != "skip_password" ==>
                inScene && login == old(login) && savedSessions == old(savedSessions)
    {
      if data == "cancel_telegram_login" {
        CleanupSession();
        inScene := false;
        return;
      }
      if data == "skip_password" {
        login := Some(login.value.(step := Confirmation));
        CompleteLogin(sessionString, saveOk);
      }
    }

    /** `onStart` (the `/start` hears handler): deletes the login session and leaves. */
    method OnStart()
      modifies this
      ensures Valid() && !inScene && login == None && savedSessions == old(savedSessions)
    {
      CleanupSession();
      inScene := false;
    }
  }
}
