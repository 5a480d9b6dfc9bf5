/**
 * `UsersService.saveClients` (src/users/users.service.ts): the record each uploaded client
 * becomes before `createMany` stores them. The insert itself is not modelled.
 */
module Users {
  import opened Wrappers
  import opened Strings

  /** A field of an uploaded row, as the spreadsheet reader may leave it. */
  datatype Field = Missing | Text(text: string) | Number(number: int)

  /** The JavaScript falsy values among them: `undefined`, `""` and `0`. */
  predicate IsFalsy(f: Field) {
    f == Missing || f == Text([]) || f == Number(0)
  }

  /** `String(f || "")` */
  function FieldText(f: Field): (s: string)
    ensures IsFalsy(f) ==> s == []
    ensures f.Text? ==> s == f.text
    ensures f.Number? && f.number != 0 ==> s == IntToString(f.number)
  {
    match f
    case Missing => []
    case Text(t) => t
    case Number(n) => if n == 0 then [] else IntToString(n)
  }

  datatype ClientRow = ClientRow(phone: Field, telegramId: Field, email: Field, name: Field)

  datatype SavedClient = SavedClient(
    userId: int,
    phone: string,
    telegramId: string,
    email: string,
    name: string,
    proccesed: bool)

  /** A non-empty phone without a leading '+' gets one. */
  function WithPlus(phone: string): (r: string)
    ensures r == [] <==> phone == []
    ensures r != [] ==> r[0] == '+'
    ensures r == phone || r == "+" + phone
    ensures StartsWith(phone, "+") ==> r == phone
  {
    if phone != [] && !StartsWith(phone, "+") then "+" + phone else phone
  }

  /** Normalising twice is normalising once. */
  lemma WithPlusIdempotent(phone: string)
    ensures WithPlus(WithPlus(phone)) == WithPlus(phone)
  {
    var r := WithPlus(phone);
    if r != [] {
      assert r[..1] == "+";
    }
  }

  /** The record one uploaded row becomes. */
  function NormalizeClient(client: ClientRow, userId: int, proccesed: Option<bool>): (c: SavedClient)
    ensures c.userId == userId
    ensures c.phone == WithPlus(FieldText(client.phone))
    ensures c.telegramId == FieldText(client.telegramId) && c.email == FieldText(client.email)
    ensures c.name == FieldText(client.name)
    ensures c.proccesed <==> proccesed == Some(true)
  {
    var phone := FieldText(client.phone);
    var phone' := if phone != [] && !StartsWith(phone, "+") then "+" + phone else phone;
    SavedClient(userId, phone', FieldText(client.telegramId), FieldText(client.email),
                FieldText(client.name), proccesed.GetOr(false))
  }

  /** The `clients.map` of `saveClients`: one record per row, in the same order. */
  function SaveClients(clients: seq<ClientRow>, userId: int, proccesed: Option<bool>): (r: seq<SavedClient>)
    ensures |r| == |clients|
    ensures forall k :: 0 <= k < |r| ==> r[k] == NormalizeClient(clients[k], userId, proccesed)
  {
    seq(|clients|, k requires 0 <= k < |clients| => NormalizeClient(clients[k], userId, proccesed))
  }

  /** Every stored record belongs to the uploader, and every non-empty stored phone starts
      with '+', so a second pass over the stored phones changes none of them. */
  lemma SavedClientsNormalized(clients: seq<ClientRow>, userId: int, proccesed: Option<bool>)
    ensures var r := SaveClients(clients, userId, proccesed);
            forall k :: 0 <= k < |r| ==>
              && r[k].userId == userId
              && (r[k].phone == [] || r[k].phone[0] == '+')
              && WithPlus(r[k].phone) == r[k].phone
  {
    var r := SaveClients(clients, userId, proccesed);
    forall k | 0 <= k < |r|
      ensures WithPlus(r[k].phone) == r[k].phone
    {
      WithPlusIdempotent(FieldText(clients[k].phone));
    }
  }

  /** Saving a numeric phone stores its digits behind a '+'. */
  lemma NumericPhoneGetsPlus(n: nat, userId: int, rest: ClientRow)
    requires n > 0
    ensures NormalizeClient(rest.(phone := Number(n)), userId, None).phone == "+" + NatToString(n)
  {
    assert NatToString(n)[0] != '+' by {
      assert IsDigit(NatToString(n)[0]);
    }
  }
}
