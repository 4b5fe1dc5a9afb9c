/**
 * What the request schemas share: validation issues, the parse outcome,
 * grouping of issue messages per field, and the character-class patterns
 * (phone, pincode, PAN, GSTIN) of the party and business forms.
 */
module Validation {
  import opened Wrappers
  import opened Text
  import opened Entities

  const PhoneMessage: string := "Phone must be 10 digits"
  const GstinMessage: string := "Invalid GSTIN format"
  const PanMessage: string := "Invalid PAN format (e.g., ABCDE1234F)"
  const PincodeMessage: string := "Pincode must be 6 digits"

  /** One schema violation: where (`path`) and what (`message`). */
  datatype Issue = Issue(path: seq<string>, message: string)

  /** `safeParse`: the transformed data, or the non-empty list of issues. */
  datatype Parsed<+T> = Parsed(data: T) | Failed(issues: seq<Issue>)

  /**
   * The message used where a schema relies on the validation library's own
   * wording rather than a message of its own; it stands in for that
   * wording, which differs from issue kind to issue kind.
   */
  const DefaultMessage: string := "Invalid input"

  /** The issue of one rule on one field: none when the rule holds. */
  function Check(ok: bool, field: string, message: string): (r: seq<Issue>)
    ensures r == [] <==> ok
    ensures forall i :: 0 <= i < |r| ==> r[i] == Issue([field], message)
  {
    if ok then [] else [Issue([field], message)]
  }

  /** The outcome of a parse whose issues are `issues` and whose output would be `data`. */
  function Outcome<T>(issues: seq<Issue>, data: T): (r: Parsed<T>)
    ensures r.Parsed? <==> issues == []
    ensures r.Parsed? ==> r.data == data
    ensures r.Failed? ==> r.issues == issues
  {
    if issues == [] then Parsed(data) else Failed(issues)
  }

  // ---- messages per field ------------------------------------------------

  /**
   * The field an issue is filed under: its first path segment; an issue with
   * an empty path goes under `root`, or nowhere when `root` is None.
   */
  function KeyOf(issue: Issue, root: Option<string>): Option<string>
  {
    if issue.path != [] then Some(issue.path[0]) else root
  }

  /**
   * Messages filed per field, in issue order.  With `root` None this is the
   * `fieldErrors` part of `flatten()`; with `Some("root")` it is the grouping
   * the bill action does by hand.
   */
  function Group(issues: seq<Issue>, root: Option<string>): FieldMessages
  {
    if issues == [] then map[]
    else
      var g := Group(issues[..|issues| - 1], root);
      var last := issues[|issues| - 1];
      match KeyOf(last, root)
      case None => g
      case Some(k) => g[k := (if k in g then g[k] else []) + [last.message]]
  }

  type FieldMessages = map<string, seq<string>>

  /** The messages of the issues filed under `k`, in order. */
  function MessagesFor(issues: seq<Issue>, root: Option<string>, k: string): (r: seq<string>)
    ensures |r| <= |issues|
  {
    if issues == [] then []
    else
      var last := issues[|issues| - 1];
      MessagesFor(issues[..|issues| - 1], root, k)
        + (if KeyOf(last, root) == Some(k) then [last.message] else [])
  }

  /**
   * Grouping files every message, and only those, under its field, keeping
   * their order: a field has an entry exactly when some issue is filed under
   * it, and the entry lists that field's messages in issue order.
   */
  lemma {:induction false} GroupSpec(issues: seq<Issue>, root: Option<string>, k: string)
    ensures k in Group(issues, root) <==> exists i :: 0 <= i < |issues| && KeyOf(issues[i], root) == Some(k)
    ensures k in Group(issues, root) ==> Group(issues, root)[k] == MessagesFor(issues, root, k)
    ensures k !in Group(issues, root) ==> MessagesFor(issues, root, k) == []
  {
    if issues != [] {
      var init := issues[..|issues| - 1];
      GroupSpec(init, root, k);
      forall i | 0 <= i < |init| ensures init[i] == issues[i] {}
      if exists i :: 0 <= i < |issues| && KeyOf(issues[i], root) == Some(k) {
        var i :| 0 <= i < |issues| && KeyOf(issues[i], root) == Some(k);
        if i < |init| {
          assert KeyOf(init[i], root) == Some(k);
        }
      }
    }
  }

  // ---- character-class patterns -------------------------------------------

  /** `[0-9]{n}` over all of `s`, for the ranges the forms use. */
  predicate DigitsOfLength(s: string, lo: nat, hi: nat)
  {
    lo <= |s| <= hi && AllDigits(s)
  }

  /** `/^[0-9]{10}$/` */
  predicate IsPhone(s: string) { DigitsOfLength(s, 10, 10) }

  /** `/^[0-9]{6}$/` */
  predicate IsPincode(s: string) { DigitsOfLength(s, 6, 6) }

  /** `/^[A-Z]{5}[0-9]{4}[A-Z]{1}$/`: five letters, four digits, one letter. */
  predicate IsPan(s: string)
  {
    && |s| == 10
    && (forall i :: 0 <= i < 5 ==> IsUpper(s[i]))
    && (forall i :: 5 <= i < 9 ==> IsDigit(s[i]))
    && IsUpper(s[9])
  }

  /**
   * `/^[0-9]{2}[A-Z]{5}[0-9]{4}[A-Z]{1}[1-9A-Z]{1}Z[0-9A-Z]{1}$/`: state code,
   * the holder's PAN, entity number, the letter Z and a check character.
   */
  predicate IsGstin(s: string)
  {
    && |s| == 15
    && IsDigit(s[0]) && IsDigit(s[1])
    && (forall i :: 2 <= i < 7 ==> IsUpper(s[i]))
    && (forall i :: 7 <= i < 11 ==> IsDigit(s[i]))
    && IsUpper(s[11])
    && (('1' <= s[12] <= '9') || IsUpper(s[12]))
    && s[13] == 'Z'
    && IsDigitOrUpper(s[14])
  }

  /** Characters 3 to 12 of every accepted GSTIN are an accepted PAN. */
  lemma GstinHoldsPan(s: string)
    requires IsGstin(s)
    ensures IsPan(s[2..12])
  {
    var p := s[2..12];
    forall i | 0 <= i < 5 ensures IsUpper(p[i]) {
      assert p[i] == s[i + 2];
    }
    forall i | 5 <= i < 9 ensures IsDigit(p[i]) {
      assert p[i] == s[i + 2];
    }
  }

  /** The PAN and GSTIN patterns accept no lower-case letter. */
  lemma PatternsRejectLowerCase(s: string)
    ensures IsPan(s) ==> forall i :: 0 <= i < |s| ==> !IsLower(s[i])
    ensures IsGstin(s) ==> forall i :: 0 <= i < |s| ==> !IsLower(s[i])
  {
  }

  // ---- optional text fields -------------------------------------------------

  /**
   * `z.string().trim().optional().refine(v => !v || pattern.test(v))`: absent,
   * blank after trimming, or matching after trimming.
   */
  predicate OptionalMatch(v: Option<string>, pattern: string -> bool)
  {
    v.None? || Trim(v.value) == "" || pattern(Trim(v.value))
  }

  /** `z.string().trim().email().optional().or(z.literal(""))`. */
  predicate OptionalEmail(v: Option<string>, isEmail: string -> bool)
  {
    v.None? || isEmail(Trim(v.value)) || v.value == ""
  }

  /** The value a trimming field passes on. */
  function Trimmed(v: Option<string>): (r: Option<string>)
    ensures r.Some? <==> v.Some?
    ensures r.Some? ==> |r.value| <= |v.value| && r.value == Trim(v.value)
  {
    match v
    case None => None
    case Some(s) => Some(Trim(s))
  }

  // ---- the contact fields of the party and business forms -----------------

  /**
   * The contact rules both forms state: phone, gstin, pan and pincode are
   * blank or match their pattern after trimming; email is absent, empty or
   * accepted by `isEmail` after trimming.  The address lines and the city are
   * free text.
   */
  predicate ContactRules(c: Contact, isEmail: string -> bool)
  {
    && OptionalMatch(c.phone, IsPhone)
    && OptionalEmail(c.email, isEmail)
    && OptionalMatch(c.gstin, IsGstin)
    && OptionalMatch(c.pan, IsPan)
    && OptionalMatch(c.pincode, IsPincode)
  }

  /** One issue per contact field that breaks its rule, with the form's message. */
  function ContactIssues(c: Contact, isEmail: string -> bool): (r: seq<Issue>)
    ensures r == [] <==> ContactRules(c, isEmail)
  {
    Check(OptionalMatch(c.phone, IsPhone), "phone", PhoneMessage)
    + Check(OptionalEmail(c.email, isEmail), "email", "Invalid email")
    + Check(OptionalMatch(c.gstin, IsGstin), "gstin", GstinMessage)
    + Check(OptionalMatch(c.pan, IsPan), "pan", PanMessage)
    + Check(OptionalMatch(c.pincode, IsPincode), "pincode", PincodeMessage)
  }

  /** The contact as the schema passes it on: the checked fields trimmed, the rest as given. */
  function ParsedContact(c: Contact): (r: Contact)
    ensures r.phone == Trimmed(c.phone) && r.email == Trimmed(c.email)
    ensures r.gstin == Trimmed(c.gstin) && r.pan == Trimmed(c.pan) && r.pincode == Trimmed(c.pincode)
    ensures r.addressLine1 == c.addressLine1 && r.addressLine2 == c.addressLine2 && r.city == c.city
  {
    c.(phone := Trimmed(c.phone), email := Trimmed(c.email), gstin := Trimmed(c.gstin),
       pan := Trimmed(c.pan), pincode := Trimmed(c.pincode))
  }

  /** What the contact rules guarantee about the values passed on. */
  lemma ParsedContactShape(c: Contact, isEmail: string -> bool)
    requires ContactRules(c, isEmail)
    ensures var p := ParsedContact(c);
      && (p.phone.Some? && p.phone.value != "" ==> IsPhone(p.phone.value))
      && (p.gstin.Some? && p.gstin.value != "" ==> IsGstin(p.gstin.value))
      && (p.pan.Some? && p.pan.value != "" ==> IsPan(p.pan.value))
      && (p.pincode.Some? && p.pincode.value != "" ==> IsPincode(p.pincode.value))
      && (p.email.Some? && p.email.value != "" ==> isEmail(p.email.value))
  {
  }
}
