/**
 * The `whatsapp_create_bot` scene (src/bot/scene/whatsapp-create-bot.scene.ts): a dialog that
 * collects a phone number and a test message, then asks `WhatsappService.sendMessageWithQR`
 * to create the session.
 *
 * The Telegraf session slot `whatsappBot` is the field `bot`, whether the scene is active is
 * `inScene`, and the service is the registry the scene was built with. Replies and keyboards
 * are not modelled.
 */
module WhatsappBotScene {
  import opened Wrappers
  import opened Strings
  import WhatsappService

  datatype Step = PhoneInput | MessageInput | Confirmation

  /** `WhatsappBotSession` */
  datatype BotSession = BotSession(step: Step, phoneNumber: Option<string>, message: Option<string>, user: Option<string>)

  const Fresh: BotSession := BotSession(PhoneInput, None, None, None)

  predicate Truthy(o: Option<string>) { o.Some? && o.value != [] }

  /** The phone test: "+7" and a `length` of twelve UTF-16 code units in all. */
  predicate IsAcceptedPhone(text: string) { StartsWith(text, "+7") && Utf16Length(text) == 12 }

  predicate IsCancelText(text: string) {
    Contains(ToLower(text), "отмена") || Contains(ToLower(text), "cancel")
  }

  /** A phone with the accepted prefix whose other characters are digits is addressed as
      itself without the '+'; the length test plays no part. */
  lemma AcceptedPhoneJid(text: string)
    requires StartsWith(text, "+7") && AllDigits(text[1..])
    ensures WhatsappService.FormatPhoneNumber(text) == text[1..] + "@c.us"
  {
    DigitsOfDigits(text[1..]);
    assert Digits(text) == Digits(text[1..]);
    assert text[1..][0] == '7';
  }

  /** The phone test looks at the prefix and the length only, so a phone with no digit after
      "+7" can pass (`PhoneWithoutDigitsIsAccepted`); it is addressed as the bare country code. */
  lemma AcceptedPhoneWithoutDigits(text: string)
    requires StartsWith(text, "+7") && !HasDigit(text[2..])
    ensures WhatsappService.FormatPhoneNumber(text) == "7@c.us"
  {
    assert text == "+7" + text[2..];
    DigitsAppend("+7", text[2..]);
    DigitsEmptyIff(text[2..]);
    assert Digits("+7") == "7" by {
      assert "+7"[1..] == "7";
      assert "7"[1..] == [];
    }
  }

  /** Such phones exist. */
  lemma PhoneWithoutDigitsIsAccepted()
    ensures var t := "+7abcdefghij"; IsAcceptedPhone(t) && !HasDigit(t[2..])
  {
    var t := "+7abcdefghij";
    assert t[..2] == "+7";
  }

  /** The length test counts code units, not characters: "+7" and five emoji above U+FFFF is
      seven characters long and passes. */
  lemma AstralPhoneIsAccepted()
    ensures var t := "+7\U{1F642}\U{1F642}\U{1F642}\U{1F642}\U{1F642}"; |t| == 7 && IsAcceptedPhone(t)
  {
    var t := "+7\U{1F642}\U{1F642}\U{1F642}\U{1F642}\U{1F642}";
    assert t[..2] == "+7";
    assert Utf16Length(t[..2]) == 2 by {
      assert t[..2][..1] == "+";
      assert t[..2][..1][..0] == [];
    }
    assert t[..3][..2] == t[..2] && t[..3][2] == '\U{1F642}';
    assert Utf16Length(t[..3]) == 4;
    assert t[..4][..3] == t[..3] && t[..4][3] == '\U{1F642}';
    assert Utf16Length(t[..4]) == 6;
    assert t[..5][..4] == t[..4] && t[..5][4] == '\U{1F642}';
    assert Utf16Length(t[..5]) == 8;
    assert t[..6][..5] == t[..5] && t[..6][5] == '\U{1F642}';
    assert Utf16Length(t[..6]) == 10;
    assert t[..7][..6] == t[..6] && t[..7][6] == '\U{1F642}';
    assert Utf16Length(t[..7]) == 12;
    assert t[..7] == t;
  }

  class Scene {
    var inScene: bool
    var bot: Option<BotSession>
    const service: WhatsappService.Registry

    ghost predicate Valid()
      reads this, service
    {
      (inScene ==> bot.Some?) && service.Valid()
    }

    constructor (service: WhatsappService.Registry)
      requires service.Valid()
      ensures Valid() && !inScene && bot == None && this.service == service
    {
      inScene, bot := false, None;
      this.service := service;
    }

    /** `onSceneEnter`: creates the bot session if there is none, keeps its other fields,
        resets the step to phone input and copies the scene's user. */
    method OnSceneEnter(sceneUser: Option<string>)
      requires Valid()
      modifies this
      ensures Valid() && inScene
      ensures var base := if old(bot).Some? then old(bot).value else Fresh;
              bot == Some(base.(step := PhoneInput, user := if sceneUser.Some? then sceneUser else base.user))
    {
      var session := if bot.Some? then bot.value else Fresh;
      session := session.(step := PhoneInput);
      if sceneUser.Some? {
        session := session.(user := sceneUser);
      }
      bot := Some(session);
      inScene := true;
    }

    /** `onText`: "/start" and a cancel word leave the scene and keep the bot session; the phone
        step takes an accepted phone and moves on, the message step takes any text and moves
        to confirmation, and the confirmation step has no case, so text changes nothing. */
    method OnText(text: string)
      requires Valid() && inScene
      modifies this
      ensures Valid()
      ensures text == "/start" || IsCancelText(text) ==> !inScene && bot == old(bot)
      ensures var s := old(bot).value;
              text != "/start" && !IsCancelText(text) ==>
                && inScene
                && bot == match s.step {
                            case PhoneInput =>
                              if IsAcceptedPhone(text) then Some(s.(phoneNumber := Some(text), step := MessageInput))
                              else old(bot)
                            case MessageInput => Some(s.(message := Some(text), step := Confirmation))
                            case Confirmation => old(bot)
                          }
    {
      if text == "/start" {
        inScene := false;
        return;
      }
      var session := bot.value;
      if Contains(ToLower(text), "отмена") || Contains(ToLower(text), "cancel") {
        inScene := false;
        return;
      }
      match session.step {
        case PhoneInput =>
          if StartsWith(text, "+7") && Utf16Length(text) == 12 {
            bot := Some(session.(phoneNumber := Some(text), step := MessageInput));
          }
        case MessageInput =>
          bot := Some(session.(message := Some(text), step := Confirmation));
        case Confirmation =>
      }
    }

    /** `onCallbackQuery`: cancel leaves; confirm asks the service for a new session when both
        the phone and the message are set, from whatever step, and leaves in every case; other
        data is ignored. The test message itself is not passed on: `sendMessageWithQR` never
        sends it. */
    method OnCallbackQuery(data: string, now: nat, authStateLoads: bool, qrArrives: bool,
                           sock: WhatsappService.Socket, repliesSent: bool, createOk: bool)
      returns (created: Option<Result<string, WhatsappService.CreateError>>)
      requires Valid() && inScene
      modifies this, service
      ensures Valid() && bot == old(bot)
      ensures inScene <==> data != "cancel_whatsapp_bot" && data != "confirm_whatsapp_bot"
      ensures created.Some? <==>
                data == "confirm_whatsapp_bot" && Truthy(old(bot).value.phoneNumber) && Truthy(old(bot).value.message)
      ensures created.Some? ==>
                var phone := old(bot).value.phoneNumber.value;
                && created.value == WhatsappService.QrOutcome(phone, now, authStateLoads, qrArrives, repliesSent, createOk)
                && service.SessionRegistered("whatsapp_" + Digits(phone) + "_" + NatToString(now), authStateLoads, sock)
                && service.rows == if created.value.Ok?
                                   then old(service.rows) + [WhatsappService.UserbotRow(created.value.value, phone, false, 0)]
                                   else old(service.rows)
      ensures created.None? ==>
                && service.sessions == old(service.sessions) && service.sessionStates == old(service.sessionStates)
                && service.authFolders == old(service.authFolders) && service.folders == old(service.folders)
                && service.rows == old(service.rows) && service.pendingReconnects == old(service.pendingReconnects)
                && service.outbox == old(service.outbox)
    {
      created := None;
      if data == "cancel_whatsapp_bot" {
        inScene := false;
        return;
      }
      if data == "confirm_whatsapp_bot" {
        var session := bot.value;
        if Truthy(session.phoneNumber) && Truthy(session.message) {
          var r := service.SendMessageWithQr(session.phoneNumber.value, now, authStateLoads, qrArrives, sock, repliesSent, createOk);
          created := Some(r);
        }
        inScene := false;
      }
    }

    /** `onStart`: leaves the scene and keeps the bot session. */
    method OnStart()
      requires Valid()
      modifies this
      ensures Valid() && !inScene && bot == old(bot)
    {
      inScene := false;
    }
  }
}
