/**
 * Sharing a challan by e-mail, WhatsApp or both: the decision chain of the
 * share action, the public link, the e-mail subject and the WhatsApp link.
 */
module ShareAction {
  import opened Wrappers
  import opened Text
  import opened FinancialYear
  import opened Entities
  import opened Validation
  import opened ShareValidator
  import opened ChallanEmail
  import opened WhatsAppText

  const ValidationFailedMessage: string := "Validation failed"
  const NoAccessMessage: string := "Challan not found or you don’t have access."
  const NoAppUrlMessage: string := "NEXT_PUBLIC_APP_URL is not set"
  const EmailRequiredMessage: string := "Email is required."
  const EmailFieldMessage: string := "Email is required"
  const NoSenderMessage: string := "EMAIL_FROM is not set on server."
  const SendFailedMessage: string := "Failed to send email. Please try again."

  /** `buildPublicChallanUrl`: None when the application URL is not configured (the call throws). */
  function PublicChallanUrl(appUrl: Option<string>, challanId: Id): (r: Option<string>)
    ensures r.Some? <==> Given(appUrl)
    ensures r.Some? ==> r.value == appUrl.value + "/challans/" + challanId + "/view"
  {
    if Given(appUrl) then Some(appUrl.value + "/challans/" + challanId + "/view") else None
  }

  /**
   * `buildWhatsAppUrl`: the phone with every white-space character removed;
   * a non-empty phone addresses the chat, otherwise the link opens without a
   * recipient.  `encode` is `encodeURIComponent`.
   */
  function WhatsAppUrl(phone: Option<string>, text: string, encode: string -> string): (r: string)
    ensures var p := RemoveSpaces(phone.GetOr(""));
      r == (if p != "" then "https://wa.me/" + p + "?text=" + encode(text)
            else "https://wa.me/?text=" + encode(text))
  {
    var p := RemoveSpaces(phone.GetOr(""));
    if p != "" then "https://wa.me/" + p + "?text=" + encode(text) else "https://wa.me/?text=" + encode(text)
  }

  /** The link never holds white space between "wa.me/" and "?text=". */
  lemma WhatsAppUrlRecipient(phone: Option<string>, text: string, encode: string -> string)
    requires RemoveSpaces(phone.GetOr("")) != ""
    ensures var p := RemoveSpaces(phone.GetOr(""));
      var r := WhatsAppUrl(phone, text, encode);
      && r[..14] == "https://wa.me/"
      && r[14..14 + |p|] == p
      && forall i :: 14 <= i < 14 + |p| ==> !IsSpace(r[i])
  {
    var p := RemoveSpaces(phone.GetOr(""));
    var r := WhatsAppUrl(phone, text, encode);
    assert r == "https://wa.me/" + p + ("?text=" + encode(text));
  }

  /**
   * The number part of the e-mail subject: the financial-year key of the
   * challan date, "-", and the number padded to four digits.  Challan numbers
   * are stored as decimal strings; `otherwise` renders any other text the way
   * `String(Number(s)).padStart(4, "0")` would.
   */
  function SubjectNumber(yearKey: string, challanNo: string, otherwise: string -> string): string
  {
    yearKey + "-" + (if challanNo != "" && AllDigits(challanNo) then Pad(ParseDecimal(challanNo), DefaultPadWidth)
                     else otherwise(challanNo))
  }

  /** The subject: "Challan", directly followed by the number part when the challan has a number. */
  function Subject(ch: Challan, otherwise: string -> string): (r: string)
    ensures |r| >= 7 && r[..7] == "Challan"
    ensures !Given(ch.challanNo) ==> r == "Challan"
  {
    "Challan" + (if Given(ch.challanNo) then SubjectNumber(YearKey(ch.date), ch.challanNo.value, otherwise) else "")
  }

  /** A challan numbered `n` at creation is mailed as "Challan" + year key + "-" + `n` on four digits. */
  lemma SubjectOfIssuedNumber(ch: Challan, n: nat, otherwise: string -> string)
    requires ch.challanNo == Some(DecimalString(n))
    ensures Subject(ch, otherwise) == "Challan" + YearKey(ch.date) + "-" + Pad(n, DefaultPadWidth)
  {
    DecimalRoundTrip(n);
  }

  /** The plain-text body: the note and a blank line when there is a note, then the link. */
  function PlainText(message: Option<string>, publicUrl: string): string
  {
    (if Given(message) then message.value + "\n\n" else "") + publicUrl
  }

  /** The mail the action hands to the mailer: recipient, subject, plain text and the parts of the HTML body. */
  datatype Mail = Mail(to: string, subject: string, text: string, html: EmailBody)

  /**
   * What a share request ends in: a result (with the WhatsApp link on success)
   * and the mail handed over, if any; or an exception, when the public link
   * cannot be built.
   */
  datatype ShareOutcome =
    | Returned(result: ActionResult<Option<string>>, mail: Option<Mail>)
    | Threw(message: string)

  predicate WantsEmail(m: ShareMode) { m == EMAIL || m == BOTH }
  predicate WantsWhatsApp(m: ShareMode) { m == WHATSAPP || m == BOTH }

  /** The collaborators of the action that are outside the model. */
  datatype Environment = Environment(
    appUrl: Option<string>, emailFrom: Option<string>,
    formatDate: Date -> string, formatMoney: real -> string,
    encode: string -> string, otherNumber: string -> string)

  function SenderOf(b: Business): Sender
  {
    Sender(b.name, b.contact.phone, b.contact.email, b.contact.city, b.contact.gstin)
  }

  /** The company block of the e-mail: the business's name and contact fields; no website and no logo. */
  function CompanyOf(b: Business): (r: CompanyInfo)
    ensures r.name == b.name && r.website.None? && r.logoUrl.None?
  {
    CompanyInfo(b.name, b.contact.phone, b.contact.email, b.contact.addressLine1, b.contact.addressLine2,
                b.contact.city, b.contact.pincode, b.contact.gstin, None, None)
  }

  function InfoOf(ch: Challan, parties: map<Id, Party>, env: Environment): ChallanInfo
  {
    ChallanInfo(ch.challanNo, Some(env.formatDate(ch.date)),
                if ch.partyId in parties then Some(parties[ch.partyId].name) else None,
                Some(env.formatMoney(ch.totalAmount.GetOr(0.0))))
  }

  /** The challan the user may share: it exists and belongs to the business the user owns. */
  predicate Shareable(challans: map<Id, Challan>, businesses: map<Id, Business>, ownerId: Id, id: Id)
  {
    id in challans && ownerId in businesses && challans[id].businessId == businesses[ownerId].id
  }

  /**
   * `shareChallanAction`.  `sendFails` says whether the mailer rejects the
   * mail.  A mail is handed over only for the e-mail modes, after every
   * check has passed; a missing sender address or a rejected mail is
   * reported with its own message.  The WhatsApp link is returned exactly
   * for the WhatsApp modes, and carries the message built from the
   * business, the challan, its public page and the note.
   */
  function ShareChallan(form: ShareForm, challans: map<Id, Challan>, businesses: map<Id, Business>,
                        parties: map<Id, Party>, ownerId: Id, env: Environment, sendFails: bool)
    : (r: ShareOutcome)
    ensures ParseShare(form).Failed? ==>
      r == Returned(Err(None, ValidationFailedMessage, Some(Group(ParseShare(form).issues, None))), None)
    ensures ParseShare(form).Parsed? && !Shareable(challans, businesses, ownerId, form.challanId) ==>
      r == Returned(Err(None, NoAccessMessage, None), None)
    ensures r.Threw? <==> ParseShare(form).Parsed? && Shareable(challans, businesses, ownerId, form.challanId)
                          && !Given(env.appUrl)
    ensures r.Returned? && r.mail.Some? ==>
      && WantsEmail(ParseShare(form).data.mode)
      && Given(ParseShare(form).data.email) && Given(env.emailFrom)
      && r.mail.value.to == ParseShare(form).data.email.value
    ensures r.Returned? && r.mail.Some? ==>
      var ch := challans[form.challanId];
      var publicUrl := PublicChallanUrl(env.appUrl, form.challanId).value;
      var message := ParseShare(form).data.message;
      && r.mail.value.subject == Subject(ch, env.otherNumber)
      && r.mail.value.text == PlainText(message, publicUrl)
      && r.mail.value.html == EmailBodyOf(publicUrl, message, CompanyOf(businesses[ownerId]), InfoOf(ch, parties, env))
    ensures r.Returned? && r.result.Ok? ==>
      && Shareable(challans, businesses, ownerId, form.challanId)
      && (r.result.value.Some? <==> WantsWhatsApp(ParseShare(form).data.mode))
      && (WantsEmail(ParseShare(form).data.mode) ==> r.mail.Some? && !sendFails)
    ensures r.Returned? && r.result.Ok? && WantsWhatsApp(ParseShare(form).data.mode) ==>
      var req := ParseShare(form).data;
      var publicUrl := PublicChallanUrl(env.appUrl, form.challanId).value;
      var text := Join(Blocks(SenderOf(businesses[ownerId]), InfoOf(challans[form.challanId], parties, env),
                              publicUrl, req.message), "\n");
      r.result.value == Some(WhatsAppUrl(req.phone, text, env.encode))
    ensures ParseShare(form).Parsed? && Shareable(challans, businesses, ownerId, form.challanId) && Given(env.appUrl)
            && WantsEmail(ParseShare(form).data.mode) && Given(ParseShare(form).data.email) ==>
      && (!Given(env.emailFrom) ==> r == Returned(Err(None, NoSenderMessage, None), None))
      && (Given(env.emailFrom) && sendFails ==> r.Returned? && r.mail.Some? && r.result == Err(None, SendFailedMessage, None))
    ensures ParseShare(form).Parsed? && ParseShare(form).data.mode == WHATSAPP && r.Returned?
              && Shareable(challans, businesses, ownerId, form.challanId) ==>
      r.result.Ok? && r.mail.None?
  {
    match ParseShare(form)
    case Failed(issues) => Returned(Err(None, ValidationFailedMessage, Some(Group(issues, None))), None)
    case Parsed(req) =>
      if !Shareable(challans, businesses, ownerId, req.challanId) then
        Returned(Err(None, NoAccessMessage, None), None)
      else
        var ch := challans[req.challanId];
        var business := businesses[ownerId];
        match PublicChallanUrl(env.appUrl, req.challanId)
        case None => Threw(NoAppUrlMessage)
        case Some(publicUrl) =>
          if WantsEmail(req.mode) && !Given(req.email) then
            Returned(Err(None, EmailRequiredMessage, Some(map["email" := [EmailFieldMessage]])), None)
          else if WantsEmail(req.mode) && !Given(env.emailFrom) then
            Returned(Err(None, NoSenderMessage, None), None)
          else
            var mail := if WantsEmail(req.mode)
              then Some(Mail(req.email.value, Subject(ch, env.otherNumber), PlainText(req.message, publicUrl),
                             EmailBodyOf(publicUrl, req.message, CompanyOf(business), InfoOf(ch, parties, env))))
              else None;
            if mail.Some? && sendFails then
              Returned(Err(None, SendFailedMessage, None), mail)
            else
              var text := Join(Blocks(SenderOf(business), InfoOf(ch, parties, env), publicUrl, req.message), "\n");
              var url := if WantsWhatsApp(req.mode) then Some(WhatsAppUrl(req.phone, text, env.encode)) else None;
              Returned(Ok(url), mail)
  }

  /**
   * A mail handed to the mailer is about the business and the challan
   * shared: it is sent in the business's name, shows its GSTIN line exactly
   * when it has a GSTIN and its contact line exactly when it has a phone or
   * an e-mail address, links to the challan's public page, and carries the
   * note exactly when the user wrote one.
   */
  lemma SharedMailBody(form: ShareForm, challans: map<Id, Challan>, businesses: map<Id, Business>,
                       parties: map<Id, Party>, ownerId: Id, env: Environment, sendFails: bool)
    requires ParseShare(form).Parsed? && Shareable(challans, businesses, ownerId, form.challanId)
    requires var r := ShareChallan(form, challans, businesses, parties, ownerId, env, sendFails);
      r.Returned? && r.mail.Some?
    ensures var r := ShareChallan(form, challans, businesses, parties, ownerId, env, sendFails);
      var b, body := businesses[ownerId], r.mail.value.html;
      && body.header.companyName == b.name && body.sentBy == b.name
      && (body.header.legalLine.Some? <==> Given(b.contact.gstin))
      && (body.header.companyLine.Some? <==> Given(b.contact.phone) || Given(b.contact.email))
      && (body.queriesPhone.Some? <==> Given(b.contact.phone))
      && body.publicUrl == env.appUrl.value + "/challans/" + form.challanId + "/view"
      && (body.noteHtml.Some? <==> Given(ParseShare(form).data.message))
  {
  }

  /** E-mail and both modes refuse a request without an address before anything is sent. */
  lemma EmailModesNeedAddress(form: ShareForm, challans: map<Id, Challan>, businesses: map<Id, Business>,
                              parties: map<Id, Party>, ownerId: Id, env: Environment, sendFails: bool)
    requires ParseShare(form).Parsed? && Shareable(challans, businesses, ownerId, form.challanId)
    requires Given(env.appUrl) && WantsEmail(ParseShare(form).data.mode) && !Given(ParseShare(form).data.email)
    ensures ShareChallan(form, challans, businesses, parties, ownerId, env, sendFails)
      == Returned(Err(None, EmailRequiredMessage, Some(map["email" := [EmailFieldMessage]])), None)
  {
  }
}
