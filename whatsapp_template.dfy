/**
 * The WhatsApp message for a shared challan, built block by block and joined
 * with line breaks.
 */
module WhatsAppText {
  import opened Wrappers
  import opened Text
  import opened ChallanEmail

  const DetailsHeading: string := "*Challan Details*"
  const LinkLabel: string := "View challan link:"
  const Signature: string := "— Sent via Hisab"
  const CompanySeparator: string := "  |  "

  /** The company fields the message uses. */
  datatype Sender = Sender(name: string, phone: Option<string>, email: Option<string>,
                           city: Option<string>, gstin: Option<string>)

  /** The meta lines: number, date, party and total, in that order, each only when given. */
  function MetaLines(ch: ChallanInfo): (r: seq<string>)
    ensures |r| <= 4
    ensures Given(ch.challanNumber) ==> |r| > 0 && r[0] == "Challan No: *" + ch.challanNumber.value + "*"
    ensures Given(ch.totalAmount) ==> |r| > 0 && r[|r| - 1] == "Total: *" + ch.totalAmount.value + "*"
  {
    (if Given(ch.challanNumber) then ["Challan No: *" + ch.challanNumber.value + "*"] else [])
    + (if Given(ch.challanDate) then ["Date: " + ch.challanDate.value] else [])
    + (if Given(ch.partyName) then ["Party: " + ch.partyName.value] else [])
    + (if Given(ch.totalAmount) then ["Total: *" + ch.totalAmount.value + "*"] else [])
  }

  /** Phone, e-mail and city, each only when given. */
  function CompanyParts(c: Sender): (r: seq<string>)
    ensures r == [] <==> !Given(c.phone) && !Given(c.email) && !Given(c.city)
    ensures forall i :: 0 <= i < |r| ==> r[i] != ""
  {
    (if Given(c.phone) then ["📞 " + c.phone.value] else [])
    + (if Given(c.email) then ["✉️ " + c.email.value] else [])
    + (if Given(c.city) then [c.city.value] else [])
  }

  /** The note when it is not blank, trimmed, followed by an empty spacer line. */
  function NoteBlock(note: Option<string>): (r: seq<string>)
    ensures r != [] <==> note.Some? && Trim(note.value) != ""
    ensures r != [] ==> r == [Trim(note.value), ""]
  {
    if note.Some? && Trim(note.value) != "" then [Trim(note.value), ""] else []
  }

  /** The sender's lines: the name between asterisks, then the company line and the GSTIN line when not empty. */
  function SenderLines(c: Sender): (r: seq<string>)
    ensures 1 <= |r| <= 3 && r[0] == "*" + c.name + "*"
  {
    var companyLine := Join(CompanyParts(c), CompanySeparator);
    var legal := if Given(c.gstin) then "GSTIN: " + c.gstin.value else "";
    ["*" + c.name + "*"]
    + (if companyLine != "" then [companyLine] else [])
    + (if legal != "" then [legal] else [])
  }

  /** The lines of the message, in order. */
  function Blocks(c: Sender, ch: ChallanInfo, publicUrl: string, note: Option<string>): seq<string>
  {
    SenderLines(c)
    + ["", DetailsHeading] + MetaLines(ch) + [""]
    + NoteBlock(note)
    + [LinkLabel, publicUrl, "", Signature]
  }

  /** The meta lines, pushed one by one. */
  method BuildMeta(ch: ChallanInfo) returns (meta: seq<string>)
    ensures meta == MetaLines(ch)
  {
    meta := [];
    if Given(ch.challanNumber) {
      meta := meta + ["Challan No: *" + ch.challanNumber.value + "*"];
    }
    if Given(ch.challanDate) {
      meta := meta + ["Date: " + ch.challanDate.value];
    }
    if Given(ch.partyName) {
      meta := meta + ["Party: " + ch.partyName.value];
    }
    if Given(ch.totalAmount) {
      meta := meta + ["Total: *" + ch.totalAmount.value + "*"];
    }
  }

  /** The company line: the given contact parts joined by "  |  ", or empty. */
  method BuildCompanyLine(c: Sender) returns (companyLine: string)
    ensures companyLine == Join(CompanyParts(c), CompanySeparator)
    ensures companyLine != "" <==> Given(c.phone) || Given(c.email) || Given(c.city)
  {
    var companyLineParts: seq<string> := [];
    if Given(c.phone) {
      companyLineParts := companyLineParts + ["📞 " + c.phone.value];
    }
    if Given(c.email) {
      companyLineParts := companyLineParts + ["✉️ " + c.email.value];
    }
    if Given(c.city) {
      companyLineParts := companyLineParts + [c.city.value];
    }
    assert companyLineParts == CompanyParts(c);
    JoinEmptyIff(companyLineParts, CompanySeparator);
    companyLine := if |companyLineParts| > 0 then Join(companyLineParts, CompanySeparator) else "";
  }

  /** The first lines pushed: the header, then the company and GSTIN lines when not empty. */
  method BuildSenderLines(c: Sender) returns (blocks: seq<string>)
    ensures blocks == SenderLines(c)
  {
    var header := "*" + c.name + "*";
    var companyLine := BuildCompanyLine(c);
    var legal := if Given(c.gstin) then "GSTIN: " + c.gstin.value else "";
    blocks := [];
    blocks := blocks + [header];
    if companyLine != "" {
      blocks := blocks + [companyLine];
    }
    if legal != "" {
      blocks := blocks + [legal];
    }
  }

  /**
   * `buildChallanWhatsAppText`: the header, the optional company and GSTIN
   * lines, the details heading with its meta lines, the optional note, then
   * the link and the signature, joined by "\n".
   */
  method BuildText(c: Sender, ch: ChallanInfo, publicUrl: string, note: Option<string>) returns (text: string)
    ensures text == Join(Blocks(c, ch, publicUrl, note), "\n")
  {
    var meta := BuildMeta(ch);
    var blocks := BuildSenderLines(c);
    ghost var top := blocks;
    blocks := blocks + [""];
    blocks := blocks + [DetailsHeading];
    blocks := blocks + meta;
    blocks := blocks + [""];
    ghost var upper := blocks;
    assert upper == top + ["", DetailsHeading] + MetaLines(ch) + [""];
    if note.Some? && Trim(note.value) != "" {
      blocks := blocks + [Trim(note.value)];
      blocks := blocks + [""];
    }
    assert blocks == upper + NoteBlock(note);
    blocks := blocks + [LinkLabel];
    blocks := blocks + [publicUrl];
    blocks := blocks + [""];
    blocks := blocks + [Signature];
    assert blocks == upper + NoteBlock(note) + [LinkLabel, publicUrl, "", Signature];
    text := Join(blocks, "\n");
  }

  // ---- properties of the message -----------------------------------------------------

  /** The first line is the company name between asterisks; the last four are the link and the signature. */
  lemma BlocksFrame(c: Sender, ch: ChallanInfo, publicUrl: string, note: Option<string>)
    ensures var b := Blocks(c, ch, publicUrl, note);
      && |b| >= 7
      && b[0] == "*" + c.name + "*"
      && b[|b| - 4..] == [LinkLabel, publicUrl, "", Signature]
  {
  }

  /** A non-blank note is placed, trimmed, just before the link, followed by an empty line. */
  lemma NoteBeforeLink(c: Sender, ch: ChallanInfo, publicUrl: string, note: Option<string>)
    requires note.Some? && Trim(note.value) != ""
    ensures var b := Blocks(c, ch, publicUrl, note);
      |b| >= 9 && b[|b| - 6] == Trim(note.value) && b[|b| - 5] == ""
  {
  }

  lemma {:induction false} JoinAppend(a: seq<string>, b: seq<string>, sep: string)
    requires a != [] && b != []
    ensures Join(a + b, sep) == Join(a, sep) + sep + Join(b, sep)
    decreases |a|
  {
    if |a| == 1 {
      assert (a + b)[1..] == b;
    } else {
      assert (a + b)[1..] == a[1..] + b;
      JoinAppend(a[1..], b, sep);
    }
  }

  lemma JoinFour(a: string, b: string, c: string, d: string, sep: string)
    ensures Join([a, b, c, d], sep) == a + sep + b + sep + c + sep + d
  {
    assert [c, d][1..] == [d];
    assert Join([c, d], sep) == c + sep + d;
    assert [b, c, d][1..] == [c, d];
    assert Join([b, c, d], sep) == b + sep + (c + sep + d);
    assert [a, b, c, d][1..] == [b, c, d];
    assert Join([a, b, c, d], sep) == a + sep + (b + sep + (c + sep + d));
  }

  /** Lines that start with `first` and end with the link and the signature join into a text framed by them. */
  lemma JoinFrame(b: seq<string>, first: string, publicUrl: string)
    requires |b| >= 6 && b[0] == first && b[|b| - 4..] == [LinkLabel, publicUrl, "", Signature]
    ensures var t := Join(b, "\n");
      var head := first + "\n";
      var tail := "\n" + Join([LinkLabel, publicUrl, "", Signature], "\n");
      && |t| >= |head| + |tail|
      && t[..|head|] == head
      && t[|t| - |tail|..] == tail
  {
    var n := |b|;
    var rest := b[1..];
    assert b == [first] + rest;
    JoinAppend([first], rest, "\n");
    var mid, back := b[1..n - 4], b[n - 4..];
    assert rest == mid + back;
    JoinAppend(mid, back, "\n");
  }

  /**
   * The message text begins with the header line and ends with a line
   * break and the closing lines: the link label, the link, an empty line
   * and the signature.
   */
  lemma TextFrame(c: Sender, ch: ChallanInfo, publicUrl: string, note: Option<string>)
    ensures var t := Join(Blocks(c, ch, publicUrl, note), "\n");
      var head := "*" + c.name + "*" + "\n";
      var tail := "\n" + Join([LinkLabel, publicUrl, "", Signature], "\n");
      && |t| >= |head| + |tail|
      && t[..|head|] == head
      && t[|t| - |tail|..] == tail
      && Join([LinkLabel, publicUrl, "", Signature], "\n") == LinkLabel + "\n" + publicUrl + "\n" + "" + "\n" + Signature
  {
    BlocksFrame(c, ch, publicUrl, note);
    JoinFrame(Blocks(c, ch, publicUrl, note), "*" + c.name + "*", publicUrl);
    JoinFour(LinkLabel, publicUrl, "", Signature, "\n");
  }
}
