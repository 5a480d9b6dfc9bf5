/**
 * The stand-alone script test-whatsapp.js: its own copy of the phone-to-JID formatting, the
 * send wrapper that turns any error into `false`, and its own reconnect decision. Each copy
 * is proved to agree with the service's.
 */
module TestWhatsapp {
  import opened Wrappers
  import opened Strings
  import WhatsappService

  /** The JID `sendCustomMessage` builds, written step by step as the script does. */
  function FormatJid(phoneNumber: string): (jid: string)
    ensures EndsWith(jid, "@c.us") && jid[0] == '7'
  {
    var formattedPhone := Digits(phoneNumber);
    var withCountry := if !StartsWith(formattedPhone, "7") && !StartsWith(formattedPhone, "8")
                       then "7" + formattedPhone else formattedPhone;
    var replaced := if StartsWith(withCountry, "8") then "7" + withCountry[1..] else withCountry;
    FormatJidAgrees(phoneNumber);
    replaced + "@c.us"
  }

  /** The body of `FormatJid` computes the service's digit part. */
  lemma FormatJidAgrees(phoneNumber: string)
    ensures var formattedPhone := Digits(phoneNumber);
            var withCountry := if !StartsWith(formattedPhone, "7") && !StartsWith(formattedPhone, "8")
                               then "7" + formattedPhone else formattedPhone;
            (if StartsWith(withCountry, "8") then "7" + withCountry[1..] else withCountry)
              == WhatsappService.JidDigits(phoneNumber)
  {
  }

  /** The script's JID and the service's `formatPhoneNumber` are the same for every input. */
  lemma FormatJidMatchesService(phoneNumber: string)
    ensures FormatJid(phoneNumber) == WhatsappService.FormatPhoneNumber(phoneNumber)
  {
    FormatJidAgrees(phoneNumber);
  }

  /** What `sendCustomMessage` did: its return value, and the JID it passed to the socket. */
  datatype CustomSend = CustomSend(ok: bool, sentTo: Option<string>)

  /** `sendCustomMessage`: an undefined phone number throws inside the `try` and yields false;
      otherwise the message goes to the formatted JID and the result is whether the socket
      delivered it. */
  function SendCustomMessage(phoneNumber: Option<string>, delivers: bool): (r: CustomSend)
    ensures r.ok <==> phoneNumber.Some? && delivers
    ensures r.sentTo.Some? <==> phoneNumber.Some?
    ensures r.sentTo.Some? ==> r.sentTo.value == WhatsappService.FormatPhoneNumber(phoneNumber.value)
  {
    match phoneNumber
    case None => CustomSend(false, None)
    case Some(p) =>
      FormatJidMatchesService(p);
      CustomSend(delivers, Some(FormatJid(p)))
  }

  /** The close handler of `connectToWhatsApp`. */
  predicate ShouldReconnect(statusCode: Option<int>) {
    match statusCode
    case None => true
    case Some(code) => code != WhatsappService.LoggedOut
  }

  /** The script and the service take the same reconnect decision on every close event, and
      only a logged-out close stops reconnection. */
  lemma ReconnectMatchesService(statusCode: Option<int>)
    ensures ShouldReconnect(statusCode) == WhatsappService.ShouldReconnect(statusCode)
    ensures !ShouldReconnect(statusCode) <==> statusCode == Some(401)
  {
  }
}
