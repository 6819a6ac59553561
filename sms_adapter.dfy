/** The e-mail-to-SMS notifier (infrastructure/adapters/smtp_sms_adapter.py):
    configuration checks at construction, the gateway address, the success
    test on the SMTP response, and `send_alert`, which turns every failure
    into `False`. The SMTP exchange is an opaque function `transport`. */
module SmsAdapter {
  import opened Types
  import opened Strings

  /** `CARRIER_MAP`: carrier name to e-mail-to-SMS gateway domain. */
  const CarrierMap: map<string, string> := map[
    "verizon" := "vtext.com",
    "tmobile" := "tmomail.net",
    "sprint" := "messaging.sprintpcs.com",
    "at&t" := "txt.att.net",
    "boost" := "smsmyboostmobile.com",
    "cricket" := "sms.cricketwireless.net",
    "uscellular" := "email.uscc.net",
    "googlefi" := "msg.fi.google.com",
    "ting" := "message.ting.com",
    "tracfone" := "mmst5.tracfone.com",
    "metropcs" := "mymetropcs.com",
    "mintmobile" := "mailmymobile.net",
    "republicwireless" := "text.republicwireless.com"
  ]

  /** `list(CARRIER_MAP.keys())` as Python prints it. */
  const ValidOptionsText := "['verizon', 'tmobile', 'sprint', 'at&t', 'boost', 'cricket', 'uscellular', 'googlefi', 'ting', 'tracfone', 'metropcs', 'mintmobile', 'republicwireless']"

  const InvalidPhoneMessage := "Invalid phone number format"

  const Subject := "Alerte Inondation"

  predicate IsNonZeroDigit(c: char) { '1' <= c <= '9' }

  /** A digit 1-9 followed by 1 to 14 further digits. */
  predicate SubscriberDigits(d: string)
  {
    2 <= |d| <= 15 && IsNonZeroDigit(d[0]) && AllDigits(d)
  }

  /** The language of `^\+?[1-9]\d{1,14}$`, with `\+?` read as the choice
      between no sign and one plus sign. */
  predicate PhoneLanguage(s: string)
  {
    SubscriberDigits(s) || (|s| > 0 && s[0] == '+' && SubscriberDigits(s[1..]))
  }

  /** `re.match(r"^\+?[1-9]\d{1,14}$", s)` as the matcher runs it: the
      optional sign is taken greedily, then the digits are counted. */
  function MatchesPhonePattern(s: string): (ok: bool)
    ensures ok <==> PhoneLanguage(s)
    ensures ok ==> '@' !in s
  {
    var start := if |s| > 0 && s[0] == '+' then 1 else 0;
    start < |s| && IsNonZeroDigit(s[start]) && 1 <= |s| - start - 1 <= 14
    && AllDigits(s[start + 1..])
  }

  /** `str(self.phone_number)`: an unset setting prints as "None". */
  function PhoneText(phone: Option<string>): string
  {
    match phone
    case None => "None"
    case Some(s) => s
  }

  /** The settings `EmailSmsAdapter.__init__` keeps. The SMTP server, port
      and password only reach the transport and are not modelled. */
  datatype SmsConfig = SmsConfig(email: Option<string>, phoneNumber: Option<string>, carrier: string)

  /** `EmailSmsAdapter.__init__` with `_validate_config`: lower-cases the
      carrier setting (an unset one fails on `.lower()`), then checks the
      carrier, then the phone number. */
  function NewSmsAdapter(email: Option<string>, phone: Option<string>, carrierSetting: Option<string>): (r: Result<SmsConfig>)
    ensures carrierSetting.None? ==> r == Err(OtherError("AttributeError"))
    ensures r.Ok? <==> carrierSetting.Some? && ToLower(carrierSetting.value) in CarrierMap
                       && PhoneLanguage(PhoneText(phone))
    ensures r.Ok? ==> r.value == SmsConfig(email, phone, ToLower(carrierSetting.value))
    ensures carrierSetting.Some? && ToLower(carrierSetting.value) !in CarrierMap ==>
      r == Err(ValueError("Unsupported carrier: " + ToLower(carrierSetting.value) + ". Valid options: " + ValidOptionsText))
    ensures carrierSetting.Some? && ToLower(carrierSetting.value) in CarrierMap && !PhoneLanguage(PhoneText(phone)) ==>
      r == Err(ValueError(InvalidPhoneMessage))
  {
    match carrierSetting
    case None => Err(OtherError("AttributeError"))
    case Some(raw) =>
      var carrier := ToLower(raw);
      if carrier !in CarrierMap then
        Err(ValueError("Unsupported carrier: " + carrier + ". Valid options: " + ValidOptionsText))
      else if !MatchesPhonePattern(PhoneText(phone)) then
        Err(ValueError(InvalidPhoneMessage))
      else
        Ok(SmsConfig(email, phone, carrier))
  }

  /** Every carrier in the map is spelled in lower case, so each one can be
      selected by the lower-cased configuration value. */
  lemma CarriersAreLowerCase()
    ensures forall c | c in CarrierMap :: ToLower(c) == c
  {
    assert forall c | c in CarrierMap :: NoUpperCase(c);
    forall c | c in CarrierMap
      ensures ToLower(c) == c
    {
      ToLowerKeepsLowerCase(c);
    }
  }

  /** Two spellings of a carrier that lower-case alike configure the same
      adapter; in particular upper-case names are accepted. */
  lemma CarrierCaseInsensitive(email: Option<string>, phone: Option<string>, a: string, b: string)
    requires ToLower(a) == ToLower(b)
    ensures NewSmsAdapter(email, phone, Some(a)) == NewSmsAdapter(email, phone, Some(b))
  {
  }

  lemma UpperCaseCarrierAccepted()
    ensures NewSmsAdapter(None, Some("+22997000000"), Some("VeriZon")).Ok?
  {
    assert ToLower("VeriZon") == "verizon";
  }

  /** The phone check accepts 2 to 15 digits after an optional plus sign,
      the first digit not zero; an unset number is rejected. */
  lemma PhoneExamples()
    ensures MatchesPhonePattern("+22997000000")
    ensures MatchesPhonePattern("15")
    ensures !MatchesPhonePattern("+1")
    ensures !MatchesPhonePattern("0123456")
    ensures !MatchesPhonePattern("1234567890123456")
    ensures !MatchesPhonePattern(PhoneText(None))
  {
  }

  /** `f"{number}@{CARRIER_MAP[carrier]}"`; an unknown carrier raises KeyError. */
  function GatewayAddress(number: string, carrier: string): (r: Result<string>)
    ensures r.Ok? <==> carrier in CarrierMap
    ensures carrier !in CarrierMap ==> r == Err(KeyError(carrier))
    ensures r.Ok? ==> |r.value| == |number| + 1 + |CarrierMap[carrier]|
                      && r.value[..|number|] == number && r.value[|number|] == '@'
                      && r.value[|number| + 1..] == CarrierMap[carrier]
  {
    if carrier in CarrierMap then Ok(number + "@" + CarrierMap[carrier])
    else Err(KeyError(carrier))
  }

  /** Splits an address at its first `@` into local part and domain. */
  function SplitAddress(address: string): Option<(string, string)>
  {
    match FirstIndexOf(address, '@')
    case None => None
    case Some(k) => Some((address[..k], address[k + 1..]))
  }

  /** The address is the number, an `@`, and the carrier's gateway domain:
      splitting it gives both back, provided the number has no `@` (a
      validated number never does). */
  lemma {:induction false} GatewayAddressRoundTrip(number: string, carrier: string)
    requires carrier in CarrierMap && '@' !in number
    ensures SplitAddress(GatewayAddress(number, carrier).value) == Some((number, CarrierMap[carrier]))
  {
    var address := number + "@" + CarrierMap[carrier];
    assert address[|number|] == '@';
    assert forall j | 0 <= j < |number| :: address[j] == number[j];
    assert FirstIndexOf(address, '@') == Some(|number|);
    assert address[..|number|] == number;
    assert address[|number| + 1..] == CarrierMap[carrier];
  }

  /** The message `_send_sms` builds. */
  datatype Email = Email(sender: Option<string>, to: string, subject: string, body: string)

  function ComposeSms(cfg: SmsConfig, message: string): (r: Result<Email>)
    ensures r.Ok? <==> cfg.carrier in CarrierMap
    ensures r.Ok? ==> r.value.to == GatewayAddress(PhoneText(cfg.phoneNumber), cfg.carrier).value
                      && r.value.subject == Subject && r.value.body == message
                      && r.value.sender == cfg.email
  {
    match GatewayAddress(PhoneText(cfg.phoneNumber), cfg.carrier)
    case Err(e) => Err(e)
    case Ok(to) => Ok(Email(cfg.email, to, Subject, message))
  }

  /** `_is_success`: some part of the response, as a string, contains "OK". */
  function IsSuccess(response: seq<string>): (ok: bool)
    ensures ok <==> exists j | 0 <= j < |response| :: Contains(response[j], "OK")
  {
    if response == [] then false
    else Contains(response[0], "OK") || IsSuccess(response[1..])
  }

  /** `send_alert`: never raises; it is true exactly when the message was
      composed, the transport returned, and its response reports OK. */
  function SendAlert(cfg: SmsConfig, message: string, transport: Email -> Result<seq<string>>): (sent: bool)
    ensures sent <==> ComposeSms(cfg, message).Ok?
                      && transport(ComposeSms(cfg, message).value).Ok?
                      && exists j | 0 <= j < |transport(ComposeSms(cfg, message).value).value| ::
                           Contains(transport(ComposeSms(cfg, message).value).value[j], "OK")
  {
    match ComposeSms(cfg, message)
    case Err(_) => false
    case Ok(email) =>
      match transport(email)
      case Err(_) => false
      case Ok(response) => IsSuccess(response)
  }

  /** The notification port this adapter provides: it always returns. */
  function Notifier(cfg: SmsConfig, transport: Email -> Result<seq<string>>): string -> Result<bool>
  {
    (message: string) => Ok(SendAlert(cfg, message, transport))
  }

  /** An adapter that passed validation sends every alert to the configured
      number at its carrier's gateway. */
  lemma ValidatedAdapterAddressesGateway(email: Option<string>, phone: Option<string>,
                                         carrierSetting: Option<string>, message: string)
    requires NewSmsAdapter(email, phone, carrierSetting).Ok?
    ensures var cfg := NewSmsAdapter(email, phone, carrierSetting).value;
            ComposeSms(cfg, message).Ok?
            && SplitAddress(ComposeSms(cfg, message).value.to)
               == Some((phone.value, CarrierMap[ToLower(carrierSetting.value)]))
  {
    var cfg := NewSmsAdapter(email, phone, carrierSetting).value;
    assert MatchesPhonePattern(PhoneText(phone));
    GatewayAddressRoundTrip(PhoneText(phone), cfg.carrier);
  }
}
