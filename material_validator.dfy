/** The material form: name, unit, optional HSN code and optional GST rate. */
module MaterialValidator {
  import opened Wrappers
  import opened Text
  import opened Entities
  import opened Validation

  const NameShortMessage: string := "Material name must be at least 2 characters"
  const NameLongMessage: string := "Material name is too long"
  const HsnShortMessage: string := "HSN code should be atleast of 4 digits"
  const HsnLongMessage: string := "HSN code too long"

  datatype MaterialForm = MaterialForm(
    id: Option<string>, name: string, unit: string, hsnCode: Option<string>, gstRate: Option<Num>)

  datatype MaterialData = MaterialData(
    id: Option<string>, name: string, unit: MaterialUnit, hsnCode: Option<string>, gstRate: Option<Num>)

  /** `materialUnitOptions`, in the order the form lists them. */
  const UnitOptions: seq<string> := ["KG", "PCS", "MTR", "LTR"]

  function UnitName(u: MaterialUnit): string
  {
    match u
    case KG => "KG"
    case PCS => "PCS"
    case MTR => "MTR"
    case LTR => "LTR"
  }

  /** The unit a submitted name stands for: exactly the listed options are accepted. */
  function UnitOf(s: string): (r: Option<MaterialUnit>)
    ensures r.Some? <==> s in UnitOptions
    ensures r.Some? ==> UnitName(r.value) == s
  {
    if s == "KG" then Some(KG)
    else if s == "PCS" then Some(PCS)
    else if s == "MTR" then Some(MTR)
    else if s == "LTR" then Some(LTR)
    else None
  }

  lemma UnitRoundTrip(u: MaterialUnit)
    ensures UnitName(u) in UnitOptions && UnitOf(UnitName(u)) == Some(u)
  {
  }

  /** Absent, exactly "", or 4 to 20 characters once trimmed. */
  predicate HsnOk(h: Option<string>)
  {
    h.None? || 4 <= |Trim(h.value)| <= 20 || h.value == ""
  }

  /** A real with no fractional part. */
  predicate IsInteger(x: real)
  {
    x.Floor as real == x
  }

  /** Absent, NaN, or an integer from 0 to 28. */
  predicate GstRateOk(g: Option<Num>)
  {
    g.None? || g.value.NaN? || (g.value.Finite? && IsInteger(g.value.r) && 0.0 <= g.value.r <= 28.0)
  }

  /** The rules of `materialCreateSchema`; the name length is that of the untrimmed name. */
  predicate MaterialRules(f: MaterialForm)
  {
    && 2 <= |f.name| <= 80
    && f.unit in UnitOptions
    && HsnOk(f.hsnCode)
    && GstRateOk(f.gstRate)
  }

  /** `materialCreateSchema.safeParse`. */
  function ParseMaterial(f: MaterialForm): (r: Parsed<MaterialData>)
    ensures r.Parsed? <==> MaterialRules(f)
    ensures r.Parsed? ==>
      && r.data.id == f.id
      && r.data.name == Trim(f.name)
      && UnitName(r.data.unit) == f.unit
      && r.data.hsnCode == Trimmed(f.hsnCode)
      && r.data.gstRate == f.gstRate
  {
    var unit := UnitOf(f.unit);
    var hsn := Trimmed(f.hsnCode);
    var issues :=
      Check(2 <= |f.name|, "name", NameShortMessage)
      + Check(|f.name| <= 80, "name", NameLongMessage)
      + Check(unit.Some?, "unit", DefaultMessage)
      + Check(f.hsnCode.None? || f.hsnCode.value == "" || 4 <= |hsn.value|,
              "hsnCode", HsnShortMessage)
      + Check(f.hsnCode.None? || f.hsnCode.value == "" || |hsn.value| <= 20,
              "hsnCode", HsnLongMessage)
      + Check(GstRateOk(f.gstRate), "gstRate", DefaultMessage);
    Outcome(issues, MaterialData(f.id, Trim(f.name), unit.GetOr(KG), hsn, f.gstRate))
  }

  /** A code of spaces only is refused: it is neither "" nor four characters once trimmed. */
  lemma BlankHsnRejected(s: string)
    requires s != "" && AllSpace(s)
    ensures !HsnOk(Some(s))
  {
    TrimEmptyIff(s);
  }

  /**
   * The length rule sees the untrimmed name: a space before a single
   * character is accepted and stored as that one character.
   */
  lemma NameCheckedBeforeTrim(c: char, unit: string)
    requires !IsSpace(c) && unit in UnitOptions
    ensures var r := ParseMaterial(MaterialForm(None, [' ', c], unit, None, None));
      r.Parsed? && r.data.name == [c] && |r.data.name| < 2
  {
    var name := [' ', c];
    assert name[1..] == [c];
    assert TrimStart(name) == [c];
    assert Trim(name) == [c];
  }
}
