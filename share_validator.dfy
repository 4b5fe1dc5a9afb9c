/** The share form: which challan, by which channel, to whom, with what note. */
module ShareValidator {
  import opened Wrappers
  import opened Text
  import opened Validation

  datatype ShareMode = WHATSAPP | EMAIL | BOTH

  datatype ShareForm = ShareForm(
    challanId: string, mode: string, phone: Option<string>, email: Option<string>, message: Option<string>)

  datatype ShareRequest = ShareRequest(
    challanId: string, mode: ShareMode, phone: Option<string>, email: Option<string>, message: Option<string>)

  function ModeOf(s: string): Option<ShareMode>
  {
    if s == "WHATSAPP" then Some(WHATSAPP)
    else if s == "EMAIL" then Some(EMAIL)
    else if s == "BOTH" then Some(BOTH)
    else None
  }

  /** Blank, or 10 to 15 digits once every white-space character is removed. */
  predicate SharePhoneOk(p: Option<string>)
  {
    p.None? || Trim(p.value) == "" || DigitsOfLength(RemoveSpaces(Trim(p.value)), 10, 15)
  }

  /** The rules of `shareChallanSchema`; the email is only trimmed, never checked. */
  predicate ShareRules(f: ShareForm)
  {
    && |f.challanId| >= 1
    && ModeOf(f.mode).Some?
    && SharePhoneOk(f.phone)
    && (f.message.None? || |Trim(f.message.value)| <= 500)
  }

  /** `shareChallanSchema.safeParse`. */
  function ParseShare(f: ShareForm): (r: Parsed<ShareRequest>)
    ensures r.Parsed? <==> ShareRules(f)
    ensures r.Parsed? ==>
      && r.data.challanId == f.challanId
      && Some(r.data.mode) == ModeOf(f.mode)
      && r.data.phone == Trimmed(f.phone)
      && r.data.email == Trimmed(f.email)
      && r.data.message == Trimmed(f.message)
  {
    var mode := ModeOf(f.mode);
    var issues :=
      Check(|f.challanId| >= 1, "challanId", DefaultMessage)
      + Check(mode.Some?, "mode", DefaultMessage)
      + Check(SharePhoneOk(f.phone), "phone", "Enter a valid phone (10–15 digits, no +).")
      + Check(f.message.None? || |Trim(f.message.value)| <= 500, "message", DefaultMessage);
    Outcome(issues, ShareRequest(f.challanId, mode.GetOr(WHATSAPP), Trimmed(f.phone),
                                 Trimmed(f.email), Trimmed(f.message)))
  }
}
