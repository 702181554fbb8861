/**
 * canteen/service/SmsService.java: the credential checks that decide whether Twilio is
 * initialised and whether a message is sent, and the phone-number normaliser. The Twilio
 * client itself is not part of this model: a message that passes the gate is returned as
 * the request that would be handed to it.
 */
module Sms {
  import opened Wrappers
  import opened Text

  const PLACEHOLDER_SID: string := "your_account_sid_here"
  const PLACEHOLDER_TOKEN: string := "your_auth_token_here"
  const PLACEHOLDER_NUMBER: string := "your_twilio_phone_number_here"

  /** The three twilio.* properties; None stands for null. */
  datatype Credentials = Credentials(
    accountSid: Option<string>, authToken: Option<string>, fromPhoneNumber: Option<string>)

  /** A property holds a real value: not null and not its placeholder. */
  predicate IsSet(value: Option<string>, placeholder: string)
  {
    value.Some? && value.value != placeholder
  }

  /** init: Twilio is initialised when the SID and the token are both set. */
  function InitialisesTwilio(c: Credentials): (ok: bool)
    ensures ok <==> IsSet(c.accountSid, PLACEHOLDER_SID) && IsSet(c.authToken, PLACEHOLDER_TOKEN)
  {
    c.accountSid != None && c.accountSid.value != PLACEHOLDER_SID
    && c.authToken != None && c.authToken.value != PLACEHOLDER_TOKEN
  }

  /** sendSms's gate: it returns without sending when any of the three is null or a placeholder. */
  function SendConfigured(c: Credentials): (ok: bool)
    ensures ok <==>
      && IsSet(c.accountSid, PLACEHOLDER_SID) && IsSet(c.authToken, PLACEHOLDER_TOKEN)
      && IsSet(c.fromPhoneNumber, PLACEHOLDER_NUMBER)
  {
    !(c.accountSid == None || c.accountSid.value == PLACEHOLDER_SID
      || c.authToken == None || c.authToken.value == PLACEHOLDER_TOKEN
      || c.fromPhoneNumber == None || c.fromPhoneNumber.value == PLACEHOLDER_NUMBER)
  }

  /** Whenever sendSms gets past its gate, init has initialised Twilio. */
  lemma SendingImpliesInitialised(c: Credentials)
    requires SendConfigured(c)
    ensures InitialisesTwilio(c)
  {
  }

  /** formatPhoneNumber: the digits of the number with a '+', and the country code 91 added to a 10-digit number. */
  function FormatPhoneNumber(phone: string): (r: string)
    ensures |r| >= 1 && r[0] == '+' && AllDigits(r[1..])
    ensures r[1..] == "91" + DigitsOnly(phone) <==> |DigitsOnly(phone)| == 10
    ensures |DigitsOnly(phone)| != 10 ==> r[1..] == DigitsOnly(phone)
  {
    var clean := DigitsOnly(phone);
    if |clean| == 10 then "+91" + clean
    else if |clean| == 12 && clean[..2] == "91" then "+" + clean
    else "+" + clean
  }

  /**
   * The third branch of the source tests that the stripped number does not start with '+';
   * that always holds, so every number the first two branches miss gets a '+'.
   */
  lemma StrippedHasNoPlus(phone: string)
    ensures DigitsOnly(phone) == [] || DigitsOnly(phone)[0] != '+'
  {
  }

  /** A 10-digit number, or a 12-digit one starting with 91, comes out as +91 and ten digits. */
  lemma IndianNumbersGetCountryCode(phone: string)
    requires |DigitsOnly(phone)| == 10 || (|DigitsOnly(phone)| == 12 && DigitsOnly(phone)[..2] == "91")
    ensures |FormatPhoneNumber(phone)| == 13 && FormatPhoneNumber(phone)[..3] == "+91"
  {
    var clean := DigitsOnly(phone);
    if |clean| == 12 {
      assert FormatPhoneNumber(phone)[..3] == "+" + clean[..2];
    }
  }

  /** Formatting a formatted number changes nothing. */
  lemma FormatIdempotent(phone: string)
    ensures FormatPhoneNumber(FormatPhoneNumber(phone)) == FormatPhoneNumber(phone)
  {
    var r := FormatPhoneNumber(phone);
    var clean := DigitsOnly(phone);
    assert r == "+" + r[1..];
    DigitsOnlyAppend("+", r[1..]);
    assert DigitsOnly("+") == [];
    DigitsOnlyOfDigits(r[1..]);
    assert DigitsOnly(r) == r[1..];
    if |clean| == 10 {
      assert r[1..] == "91" + clean;
      assert r[1..][..2] == "91";
    }
  }

  /** What sendSms does: nothing when not configured, otherwise hand the formatted number, the sender and the text to Twilio. */
  datatype SmsOutcome = NotConfigured | Dispatched(to: string, from: string, message: string)

  function SendSms(c: Credentials, toPhoneNumber: string, message: string): (r: SmsOutcome)
    ensures r.NotConfigured? <==> !SendConfigured(c)
    ensures r.Dispatched? ==>
      && r.to == FormatPhoneNumber(toPhoneNumber) && r.message == message
      && c.fromPhoneNumber.Some? && r.from == c.fromPhoneNumber.value
  {
    if !SendConfigured(c) then NotConfigured
    else Dispatched(FormatPhoneNumber(toPhoneNumber), c.fromPhoneNumber.value, message)
  }
}
