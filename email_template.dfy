/**
 * The challan e-mail: HTML escaping of user-entered text and the assembly of
 * the address, meta, company and legal lines shown in the message.
 */
module ChallanEmail {
  import opened Wrappers
  import opened Text

  // ---- escaping ------------------------------------------------------------------------

  /** `s.replaceAll(c, rep)` for a one-character pattern. */
  function ReplaceAll(s: string, c: char, rep: string): (r: string)
    ensures c !in s ==> r == s
  {
    if s == [] then []
    else (if s[0] == c then rep else [s[0]]) + ReplaceAll(s[1..], c, rep)
  }

  lemma {:induction false} ReplaceAllAppend(a: string, b: string, c: char, rep: string)
    ensures ReplaceAll(a + b, c, rep) == ReplaceAll(a, c, rep) + ReplaceAll(b, c, rep)
    decreases |a|
  {
    if a != [] {
      assert (a + b)[0] == a[0];
      assert (a + b)[1..] == a[1..] + b;
      ReplaceAllAppend(a[1..], b, c, rep);
      var head := if a[0] == c then rep else [a[0]];
      assert ReplaceAll(a + b, c, rep) == head + (ReplaceAll(a[1..], c, rep) + ReplaceAll(b, c, rep));
      assert ReplaceAll(a, c, rep) == head + ReplaceAll(a[1..], c, rep);
    } else {
      assert a + b == b;
    }
  }

  /** `escapeHtml`: five replacements in turn, the ampersand first. */
  function EscapeHtml(s: string): string
  {
    ReplaceAll(ReplaceAll(ReplaceAll(ReplaceAll(ReplaceAll(s, '&', "&amp;"), '<', "&lt;"), '>', "&gt;"),
                          '"', "&quot;"), '\'', "&#039;")
  }

  /** The entity of one character: the five special characters are replaced, all others kept. */
  function EscapeChar(c: char): string
  {
    if c == '&' then "&amp;"
    else if c == '<' then "&lt;"
    else if c == '>' then "&gt;"
    else if c == '"' then "&quot;"
    else if c == '\'' then "&#039;"
    else [c]
  }

  predicate Special(c: char)
  {
    c == '&' || c == '<' || c == '>' || c == '"' || c == '\''
  }

  /** Character-by-character escaping. */
  function EscapeEach(s: string): (r: string)
    ensures forall i :: 0 <= i < |r| ==> r[i] != '<' && r[i] != '>' && r[i] != '"' && r[i] != '\''
  {
    if s == [] then [] else EscapeChar(s[0]) + EscapeEach(s[1..])
  }

  lemma EscapeHtmlAppend(a: string, b: string)
    ensures EscapeHtml(a + b) == EscapeHtml(a) + EscapeHtml(b)
  {
    var s1a, s1b := ReplaceAll(a, '&', "&amp;"), ReplaceAll(b, '&', "&amp;");
    ReplaceAllAppend(a, b, '&', "&amp;");
    var s2a, s2b := ReplaceAll(s1a, '<', "&lt;"), ReplaceAll(s1b, '<', "&lt;");
    ReplaceAllAppend(s1a, s1b, '<', "&lt;");
    var s3a, s3b := ReplaceAll(s2a, '>', "&gt;"), ReplaceAll(s2b, '>', "&gt;");
    ReplaceAllAppend(s2a, s2b, '>', "&gt;");
    var s4a, s4b := ReplaceAll(s3a, '"', "&quot;"), ReplaceAll(s3b, '"', "&quot;");
    ReplaceAllAppend(s3a, s3b, '"', "&quot;");
    ReplaceAllAppend(s4a, s4b, '\'', "&#039;");
  }

  /**
   * Because the ampersand is replaced first, no entity produced by a later
   * replacement is escaped again: the chain acts character by character.
   */
  lemma {:induction false} EscapeHtmlIsPerChar(s: string)
    ensures EscapeHtml(s) == EscapeEach(s)
    decreases |s|
  {
    if s != [] {
      assert s == [s[0]] + s[1..];
      EscapeHtmlAppend([s[0]], s[1..]);
      EscapeHtmlIsPerChar(s[1..]);
      EscapeSingle(s[0]);
    }
  }

  /** One replacement on a one-character text. */
  lemma ReplaceSingle(c: char, d: char, rep: string)
    ensures ReplaceAll([c], d, rep) == if c == d then rep else [c]
  {
    assert [c][1..] == [];
  }

  /** The chain of five replacements acts on one character as its entity. */
  lemma EscapeSingle(c: char)
    ensures EscapeHtml([c]) == EscapeChar(c)
  {
    ReplaceSingle(c, '&', "&amp;");
    if c == '&' {
      EscapeRest("&amp;");
    } else {
      ReplaceSingle(c, '<', "&lt;");
      if c == '<' {
        EscapeRestLt("&lt;");
      } else {
        ReplaceSingle(c, '>', "&gt;");
        if c == '>' {
          EscapeRestGt("&gt;");
        } else {
          ReplaceSingle(c, '"', "&quot;");
          if c == '"' {
            EscapeRestQuot("&quot;");
          } else {
            ReplaceSingle(c, '\'', "&#039;");
          }
        }
      }
    }
  }

  /** Text without < > " ' passes the last four replacements unchanged. */
  lemma EscapeRest(e: string)
    requires '<' !in e && '>' !in e && '"' !in e && '\'' !in e
    ensures ReplaceAll(ReplaceAll(ReplaceAll(ReplaceAll(e, '<', "&lt;"), '>', "&gt;"), '"', "&quot;"), '\'', "&#039;") == e
  {
  }

  /** Text without > " ' passes the last three replacements unchanged. */
  lemma EscapeRestLt(e: string)
    requires '>' !in e && '"' !in e && '\'' !in e
    ensures ReplaceAll(ReplaceAll(ReplaceAll(e, '>', "&gt;"), '"', "&quot;"), '\'', "&#039;") == e
  {
  }

  /** Text without " ' passes the last two replacements unchanged. */
  lemma EscapeRestGt(e: string)
    requires '"' !in e && '\'' !in e
    ensures ReplaceAll(ReplaceAll(e, '"', "&quot;"), '\'', "&#039;") == e
  {
  }

  /** Text without ' passes the last replacement unchanged. */
  lemma EscapeRestQuot(e: string)
    requires '\'' !in e
    ensures ReplaceAll(e, '\'', "&#039;") == e
  {
  }

  /** The escaped text contains none of < > " ' (only entities, which begin with '&'). */
  lemma EscapeHtmlSafe(s: string)
    ensures forall i :: 0 <= i < |EscapeHtml(s)| ==>
      var c := EscapeHtml(s)[i]; c != '<' && c != '>' && c != '"' && c != '\''
  {
    EscapeHtmlIsPerChar(s);
  }

  /** Decoding of the five entities, left to right. */
  function Unescape(t: string): string
    decreases |t|
  {
    if t == [] then []
    else if |t| >= 5 && t[..5] == "&amp;" then "&" + Unescape(t[5..])
    else if |t| >= 4 && t[..4] == "&lt;" then "<" + Unescape(t[4..])
    else if |t| >= 4 && t[..4] == "&gt;" then ">" + Unescape(t[4..])
    else if |t| >= 6 && t[..6] == "&quot;" then "\"" + Unescape(t[6..])
    else if |t| >= 6 && t[..6] == "&#039;" then "'" + Unescape(t[6..])
    else [t[0]] + Unescape(t[1..])
  }

  /** Decoding reads "&amp;" back as an ampersand and goes on after it. */
  lemma UnescapeAmp(rest: string)
    ensures Unescape("&amp;" + rest) == "&" + Unescape(rest)
  {
    var t := "&amp;" + rest;
    assert t[..5] == "&amp;" && t[5..] == rest;
  }

  /** Decoding reads "&lt;" back as a less-than sign and goes on after it. */
  lemma UnescapeLt(rest: string)
    ensures Unescape("&lt;" + rest) == "<" + Unescape(rest)
  {
    var t := "&lt;" + rest;
    assert t[1] == 'l';
    assert t[..4] == "&lt;" && t[4..] == rest;
  }

  /** Decoding reads "&gt;" back as a greater-than sign and goes on after it. */
  lemma UnescapeGt(rest: string)
    ensures Unescape("&gt;" + rest) == ">" + Unescape(rest)
  {
    var t := "&gt;" + rest;
    assert t[1] == 'g';
    assert t[..4] == "&gt;" && t[4..] == rest;
  }

  /** Decoding reads "&quot;" back as a double quote and goes on after it. */
  lemma UnescapeQuot(rest: string)
    ensures Unescape("&quot;" + rest) == "\"" + Unescape(rest)
  {
    var t := "&quot;" + rest;
    assert t[1] == 'q';
    assert t[..6] == "&quot;" && t[6..] == rest;
  }

  /** Decoding reads "&#039;" back as an apostrophe and goes on after it. */
  lemma UnescapeApos(rest: string)
    ensures Unescape("&#039;" + rest) == "'" + Unescape(rest)
  {
    var t := "&#039;" + rest;
    assert t[1] == '#';
    assert t[..6] == "&#039;" && t[6..] == rest;
  }

  /** A character that begins no entity is decoded as itself. */
  lemma UnescapePlain(c: char, rest: string)
    requires c != '&'
    ensures Unescape([c] + rest) == [c] + Unescape(rest)
  {
    var t := [c] + rest;
    assert t[0] == c && t[1..] == rest;
    assert |t| >= 4 ==> t[..4][0] != '&';
    assert |t| >= 5 ==> t[..5][0] != '&';
    assert |t| >= 6 ==> t[..6][0] != '&';
  }

  /** Decoding reads the entity of one character back as that character and goes on after it. */
  lemma UnescapeStep(c: char, rest: string)
    ensures Unescape(EscapeChar(c) + rest) == [c] + Unescape(rest)
  {
    if c == '&' {
      UnescapeAmp(rest);
    } else if c == '<' {
      UnescapeLt(rest);
    } else if c == '>' {
      UnescapeGt(rest);
    } else if c == '"' {
      UnescapeQuot(rest);
    } else if c == '\'' {
      UnescapeApos(rest);
    } else {
      UnescapePlain(c, rest);
    }
  }

  lemma {:induction false} UnescapeEach(s: string)
    ensures Unescape(EscapeEach(s)) == s
    decreases |s|
  {
    if s != [] {
      UnescapeStep(s[0], EscapeEach(s[1..]));
      UnescapeEach(s[1..]);
      assert s == [s[0]] + s[1..];
    }
  }

  /** Decoding the five entities gives back the original text. */
  lemma EscapeRoundTrip(s: string)
    ensures Unescape(EscapeHtml(s)) == s
  {
    EscapeHtmlIsPerChar(s);
    UnescapeEach(s);
  }

  lemma {:induction false} EscapeEachFixed(s: string)
    requires forall i :: 0 <= i < |s| ==> !Special(s[i])
    ensures EscapeEach(s) == s
    decreases |s|
  {
    if s != [] {
      EscapeEachFixed(s[1..]);
      assert s == [s[0]] + s[1..];
    }
  }

  /** Text without any of the five special characters is left as it is. */
  lemma EscapeFixedPoint(s: string)
    requires forall i :: 0 <= i < |s| ==> !Special(s[i])
    ensures EscapeHtml(s) == s
  {
    EscapeHtmlIsPerChar(s);
    EscapeEachFixed(s);
  }

  /** The note as shown: escaped, with each line break turned into `<br/>`. */
  function NoteHtml(note: string): (r: string)
    ensures '\n' !in r
  {
    ReplaceAllDrops(EscapeHtml(note), '\n', "<br/>");
    ReplaceAll(EscapeHtml(note), '\n', "<br/>")
  }

  lemma {:induction false} ReplaceAllDrops(s: string, c: char, rep: string)
    requires c !in rep
    ensures c !in ReplaceAll(s, c, rep)
    decreases |s|
  {
    if s != [] {
      ReplaceAllDrops(s[1..], c, rep);
    }
  }

  // ---- the assembled lines -------------------------------------------------------------

  datatype CompanyInfo = CompanyInfo(
    name: string, phone: Option<string>, email: Option<string>,
    addressLine1: Option<string>, addressLine2: Option<string>, city: Option<string>,
    pincode: Option<string>, gstin: Option<string>, website: Option<string>, logoUrl: Option<string>)

  /** The preformatted challan fields (number, date, party name, total). */
  datatype ChallanInfo = ChallanInfo(
    challanNumber: Option<string>, challanDate: Option<string>,
    partyName: Option<string>, totalAmount: Option<string>)

  /** A value JavaScript treats as true: present and non-empty. */
  predicate Given(v: Option<string>) { v.Some? && v.value != "" }

  /** The value, with an absent one read as the empty string (which `filter(Boolean)` drops too). */
  function OrEmpty(v: Option<string>): string { if v.Some? then v.value else "" }

  lemma {:induction false} JoinEmptyIff(parts: seq<string>, sep: string)
    requires forall i :: 0 <= i < |parts| ==> parts[i] != ""
    ensures Join(parts, sep) == "" <==> parts == []
    decreases |parts|
  {
    if |parts| > 1 {
      JoinEmptyIff(parts[1..], sep);
    }
  }

  lemma {:induction false} NonEmptyNil(parts: seq<string>)
    ensures NonEmpty(parts) == [] <==> forall i :: 0 <= i < |parts| ==> parts[i] == ""
    decreases |parts|
  {
    if parts != [] {
      NonEmptyNil(parts[1..]);
      assert forall i :: 1 <= i < |parts| ==> parts[i] == parts[1..][i - 1];
    }
  }

  /** The non-empty parts joined by `sep`. */
  function JoinGiven(parts: seq<string>, sep: string): (r: string)
    ensures r == "" <==> forall i :: 0 <= i < |parts| ==> parts[i] == ""
  {
    JoinEmptyIff(NonEmpty(parts), sep);
    NonEmptyNil(parts);
    Join(NonEmpty(parts), sep)
  }

  /**
   * The address line: first line, second line and "city - pincode", each only
   * when non-empty, joined by ", "; it is empty exactly when all four fields are.
   */
  function Address(c: CompanyInfo): (r: string)
    ensures r == "" <==> !Given(c.addressLine1) && !Given(c.addressLine2) && !Given(c.city) && !Given(c.pincode)
  {
    var cityParts := [OrEmpty(c.city), OrEmpty(c.pincode)];
    var cityLine := JoinGiven(cityParts, " - ");
    assert cityLine == "" <==> cityParts[0] == "" && cityParts[1] == "";
    var parts := [OrEmpty(c.addressLine1), OrEmpty(c.addressLine2), cityLine];
    var r := JoinGiven(parts, ", ");
    assert r == "" <==> parts[0] == "" && parts[1] == "" && parts[2] == "";
    r
  }

  lemma AddressExample()
    ensures Address(CompanyInfo("Acme", None, None, Some("Plot 4"), Some(""), Some("Surat"), Some("395003"),
                                None, None, None)) == "Plot 4, Surat - 395003"
  {
    assert NonEmpty(["Surat", "395003"]) == ["Surat", "395003"];
    assert NonEmpty(["Plot 4", "", "Surat - 395003"]) == ["Plot 4", "Surat - 395003"];
  }

  /** A labelled value of the meta grid. */
  datatype Meta = Meta(caption: string, value: string)

  function MetaIf(v: Option<string>, caption: string): (r: seq<Meta>)
    ensures |r| <= 1 && (r != [] <==> Given(v))
    ensures r != [] ==> r[0] == Meta(caption, v.value)
  {
    if Given(v) then [Meta(caption, v.value)] else []
  }

  /** The left column: challan number, date and party, in that order, each only when given. */
  function MetaLeft(ch: ChallanInfo): (r: seq<Meta>)
    ensures |r| == |MetaIf(ch.challanNumber, "Challan No.")| + |MetaIf(ch.challanDate, "Date")|
                   + |MetaIf(ch.partyName, "Party")|
    ensures forall i :: 0 <= i < |r| ==> r[i].value != ""
    ensures Given(ch.challanNumber) ==> r[0] == Meta("Challan No.", ch.challanNumber.value)
    ensures Given(ch.partyName) ==> r[|r| - 1] == Meta("Party", ch.partyName.value)
  {
    MetaIf(ch.challanNumber, "Challan No.") + MetaIf(ch.challanDate, "Date") + MetaIf(ch.partyName, "Party")
  }

  /** The right column: the total when given, otherwise the status "Shared". */
  datatype RightColumn = Totals(entries: seq<Meta>) | Status(caption: string, value: string)

  function MetaRight(ch: ChallanInfo): (r: RightColumn)
    ensures r.Status? <==> !Given(ch.totalAmount)
    ensures r.Status? ==> r == Status("Status", "Shared")
    ensures r.Totals? ==> r.entries == [Meta("Total", ch.totalAmount.value)]
  {
    var m := MetaIf(ch.totalAmount, "Total");
    if |m| > 0 then Totals(m) else Status("Status", "Shared")
  }

  function Labelled(v: Option<string>, caption: string): string
  {
    if Given(v) then caption + v.value else ""
  }

  /** Phone, e-mail and website, each only when given, joined by "  •  ". */
  function CompanyLine(c: CompanyInfo): (r: string)
    ensures r == "" <==> !Given(c.phone) && !Given(c.email) && !Given(c.website)
  {
    var parts := [Labelled(c.phone, "Phone: "), Labelled(c.email, "Email: "), Labelled(c.website, "Web: ")];
    var r := JoinGiven(parts, "  •  ");
    assert r == "" <==> parts[0] == "" && parts[1] == "" && parts[2] == "";
    r
  }

  /** "GSTIN: ..." when a GSTIN is given, otherwise empty. */
  function LegalLine(c: CompanyInfo): (r: string)
    ensures r == "" <==> !Given(c.gstin)
    ensures Given(c.gstin) ==> r == "GSTIN: " + c.gstin.value
  {
    JoinGiven([Labelled(c.gstin, "GSTIN: ")], "  •  ")
  }

  /** The heading of the title strip: "Challan " and, when there is a number, "#" and the number. */
  function Title(ch: ChallanInfo): (r: string)
    ensures |r| >= 8 && r[..8] == "Challan "
    ensures Given(ch.challanNumber) <==> |r| > 8
  {
    "Challan " + (if Given(ch.challanNumber) then "#" + ch.challanNumber.value else "")
  }

  /** The address block falls back to "Challan shared from" and the company name. */
  function AddressBlock(c: CompanyInfo): (r: string)
    ensures Address(c) != "" ==> r == Address(c)
    ensures Address(c) == "" ==> r == "Challan shared from " + c.name
  {
    var a := Address(c);
    if a != "" then a else "Challan shared from " + c.name
  }

  /**
   * The header of the mail body: the company name, the address block, and
   * the company and legal lines, each shown only when non-empty.
   */
  datatype EmailHeader = EmailHeader(
    companyName: string, addressBlock: string, companyLine: Option<string>, legalLine: Option<string>)

  function HeaderOf(c: CompanyInfo): (r: EmailHeader)
    ensures r.companyName == c.name
    ensures r.addressBlock != "" && (Address(c) != "" ==> r.addressBlock == Address(c))
    ensures r.companyLine.Some? <==> Given(c.phone) || Given(c.email) || Given(c.website)
    ensures r.legalLine == (if Given(c.gstin) then Some("GSTIN: " + c.gstin.value) else None)
  {
    var companyLine, legalLine := CompanyLine(c), LegalLine(c);
    EmailHeader(c.name, AddressBlock(c), if companyLine != "" then Some(companyLine) else None,
                if legalLine != "" then Some(legalLine) else None)
  }

  /**
   * The text the mail body carries, part by part, as `challanEmailHtml` lays
   * it out: the header, the title strip, the escaped note, the two meta
   * columns, the link, and the footer's company name and phone.  The markup
   * around the parts is not modelled.
   */
  datatype EmailBody = EmailBody(
    header: EmailHeader, title: string, noteHtml: Option<string>, metaLeft: seq<Meta>, metaRight: RightColumn,
    publicUrl: string, sentBy: string, queriesPhone: Option<string>)

  /** `challanEmailHtml`, as the parts of the body it renders. */
  function EmailBodyOf(publicUrl: string, note: Option<string>, c: CompanyInfo, ch: ChallanInfo): (r: EmailBody)
    ensures r.header == HeaderOf(c) && r.sentBy == c.name && r.publicUrl == publicUrl
    ensures |r.title| >= 8 && r.title[..8] == "Challan " && (Given(ch.challanNumber) <==> |r.title| > 8)
    ensures r.noteHtml.Some? <==> Given(note)
    ensures r.noteHtml.Some? ==> '\n' !in r.noteHtml.value
    ensures forall i :: 0 <= i < |r.metaLeft| ==> r.metaLeft[i].value != ""
    ensures r.metaRight.Status? <==> !Given(ch.totalAmount)
    ensures r.queriesPhone.Some? <==> Given(c.phone)
  {
    EmailBody(HeaderOf(c), Title(ch), if Given(note) then Some(NoteHtml(note.value)) else None,
              MetaLeft(ch), MetaRight(ch), publicUrl, c.name, if Given(c.phone) then c.phone else None)
  }

  /** A meta value as placed in the grid: escaped; labels are fixed text. */
  function MetaValueHtml(m: Meta): (r: string)
    ensures Unescape(r) == m.value
  {
    EscapeRoundTrip(m.value);
    EscapeHtml(m.value)
  }
}
