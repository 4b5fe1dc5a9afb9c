/**
 * The material actions stated on the material table: creation with the
 * default GST rate, editing, and switching active.
 */
module MaterialActions {
  import opened Wrappers
  import opened Text
  import opened Entities
  import opened Validation
  import opened MaterialValidator
  import opened Errors

  const DuplicateNameMessage: string := "Material with this name already exists"
  const CreateFailedMessage: string := "Failed to create material"
  const NotFoundMessage: string := "Material not found"
  const NotFoundDotMessage: string := "Material not found."
  const InvalidInputMessage: string := "Invalid input"

  type Materials = map<Id, Material>

  /** The rate used when the form gives none. */
  const DefaultGstRate: real := 18.0

  /**
   * `parseGstRate`: no rate gives the default, a finite number is kept, and
   * anything else (NaN, an infinity) is stored as null.
   */
  function ParseGstRate(v: Option<Num>): (r: Option<Num>)
    ensures r.None? <==> v.Some? && !v.value.Finite?
    ensures r.Some? ==> r.value.Finite?
    ensures v.Some? && v.value.Finite? ==> r == v
    ensures v.None? ==> r == Some(Finite(DefaultGstRate))
  {
    match v
    case None => Some(Finite(DefaultGstRate))
    case Some(Finite(x)) => v
    case Some(_) => None
  }

  /** Every rate a validated form stores on creation is null or a whole percentage from 0 to 28. */
  lemma CreatedRateInRange(f: MaterialForm)
    requires MaterialRules(f)
    ensures var g := ParseGstRate(ParseMaterial(f).data.gstRate);
      g.None? || (IsInteger(g.value.r) && 0.0 <= g.value.r <= 28.0)
  {
    var g := ParseMaterial(f).data.gstRate;
    if g.None? {
      assert IsInteger(18.0) by { assert (18.0).Floor == 18; }
    }
  }

  /** `data.hsnCode ? data.hsnCode.trim() : null`: an empty code is stored as null. */
  function StoredHsn(h: Option<string>): (r: Option<string>)
    ensures r.None? <==> h.None? || h.value == ""
  {
    if h.Some? && h.value != "" then Some(Trim(h.value)) else None
  }

  /**
   * A stored HSN code is 4 to 20 characters with no surrounding spaces: the
   * form's code `v`, trimmed by the schema, passes the rule `HsnOk`.
   */
  lemma StoredHsnShape(v: string)
    requires HsnOk(Some(v))
    ensures var s := StoredHsn(Trimmed(Some(v)));
      s.Some? ==> 4 <= |s.value| <= 20 && Trim(s.value) == s.value
  {
    var t := Trim(v);
    if |t| != 0 {
      NonBlankHsnLength(v);
      TrimIdempotent(v);
      StoredHsnKeeps(t);
    }
  }

  /** A non-empty code that trimming leaves alone is stored as it is. */
  lemma StoredHsnKeeps(t: string)
    requires |t| != 0 && Trim(t) == t
    ensures StoredHsn(Some(t)) == Some(t)
  {
  }

  /** A code that is not blank passes `HsnOk` only through its length rule. */
  lemma NonBlankHsnLength(v: string)
    requires HsnOk(Some(v)) && Trim(v) != ""
    ensures 4 <= |Trim(v)| <= 20
  {
    TrimEmptyIff(v);
    assert v != "";
  }

  /** The row a validated form creates in the business. */
  function NewMaterial(businessId: Id, d: MaterialData): (r: Material)
    ensures r.businessId == businessId && r.isActive
    ensures r.name == Trim(d.name) && r.unit == d.unit
    ensures r.gstRate == ParseGstRate(d.gstRate) && r.hsnCode == StoredHsn(d.hsnCode)
  {
    Material(businessId, Trim(d.name), d.unit, ParseGstRate(d.gstRate), StoredHsn(d.hsnCode), true)
  }

  /** The row after an edit: an absent rate leaves the stored one, and `isActive` is kept. */
  function EditedMaterial(m: Material, d: MaterialData): (r: Material)
    ensures r.businessId == m.businessId && r.isActive == m.isActive
    ensures r.name == Trim(d.name) && r.unit == d.unit && r.hsnCode == StoredHsn(d.hsnCode)
    ensures r.gstRate == (if d.gstRate.None? then m.gstRate else d.gstRate)
  {
    m.(name := Trim(d.name), gstRate := if d.gstRate.None? then m.gstRate else d.gstRate,
       hsnCode := StoredHsn(d.hsnCode), unit := d.unit)
  }

  /** The errors the create and update actions catch: a unique violation, or anything else. */
  function CaughtWrite(e: Thrown): (r: ActionResult<()>)
    ensures r.Err? && r.fieldErrors.None?
    ensures r.code == Some(DUPLICATE) <==> e == KnownRequestError("P2002")
    ensures r.code == Some(DUPLICATE) || r.code == Some(SERVER_ERROR)
  {
    if e.KnownRequestError? && e.code == "P2002" then
      Err(Some(DUPLICATE), DuplicateNameMessage, None)
    else
      Err(Some(SERVER_ERROR), CreateFailedMessage, None)
  }

  function InvalidInput(issues: seq<Issue>): ActionResult<()>
  {
    Err(Some(VALIDATION_ERROR), InvalidInputMessage, Some(Group(issues, None)))
  }

  /** `createMaterialAction`: a validated form adds one row to the business. */
  function Create(materials: Materials, businessId: Id, f: MaterialForm, newId: Id, fault: Option<Thrown>)
    : (r: (ActionResult<()>, Materials))
    requires newId !in materials
    ensures !MaterialRules(f) ==> r == (InvalidInput(ParseMaterial(f).issues), materials)
    ensures MaterialRules(f) && fault.Some? ==> r == (CaughtWrite(fault.value), materials)
    ensures r.0.Ok? <==> MaterialRules(f) && fault.None?
    ensures r.0.Ok? ==> r.1 == materials[newId := NewMaterial(businessId, ParseMaterial(f).data)]
  {
    match ParseMaterial(f)
    case Failed(issues) => (InvalidInput(issues), materials)
    case Parsed(d) =>
      if fault.Some? then (CaughtWrite(fault.value), materials)
      else (Ok(()), materials[newId := NewMaterial(businessId, d)])
  }

  const IdRequired: string := "Material id is required."

  /**
   * `updateMaterialAction`: the form must parse and carry an id; a material
   * of the business is edited, any other id is not found.
   */
  function Update(materials: Materials, businessId: Id, f: MaterialForm, fault: Option<Thrown>)
    : (r: (ActionResult<()>, Materials))
    ensures !MaterialRules(f) ==> r == (InvalidInput(ParseMaterial(f).issues), materials)
    ensures MaterialRules(f) && (f.id.None? || f.id.value == "") ==>
      r == (Err(Some(VALIDATION_ERROR), IdRequired, Some(map["id" := [IdRequired]])), materials)
    ensures r.0.Err? ==> r.1 == materials
    ensures r.0.Ok? <==> && MaterialRules(f) && f.id.Some? && f.id.value != "" && fault.None?
                          && f.id.value in materials && materials[f.id.value].businessId == businessId
    ensures r.0.Ok? ==> r.1 == materials[f.id.value := EditedMaterial(materials[f.id.value], ParseMaterial(f).data)]
    ensures && MaterialRules(f) && f.id.Some? && f.id.value != "" && fault.None?
            && !(f.id.value in materials && materials[f.id.value].businessId == businessId)
            ==> r.0 == Err(Some(NOT_FOUND), NotFoundMessage, None)
  {
    match ParseMaterial(f)
    case Failed(issues) => (InvalidInput(issues), materials)
    case Parsed(d) =>
      if d.id.None? || d.id.value == "" then
        (Err(Some(VALIDATION_ERROR), IdRequired, Some(map["id" := [IdRequired]])), materials)
      else if fault.Some? then (CaughtWrite(fault.value), materials)
      else if !(d.id.value in materials && materials[d.id.value].businessId == businessId) then
        (Err(Some(NOT_FOUND), NotFoundMessage, None), materials)
      else (Ok(()), materials[d.id.value := EditedMaterial(materials[d.id.value], d)])
  }

  /**
   * Saving a just-created material again with the same form changes nothing,
   * except when the form's rate is NaN: creation stores null for it, editing
   * stores the NaN, because editing does not apply `parseGstRate`.
   */
  lemma ResubmitKeepsRow(businessId: Id, d: MaterialData)
    requires Trim(d.name) == d.name
    ensures var m := NewMaterial(businessId, d);
      EditedMaterial(m, d) == m <==> !(d.gstRate.Some? && !d.gstRate.value.Finite?)
  {
    var m := NewMaterial(businessId, d);
    if d.gstRate.Some? && !d.gstRate.value.Finite? {
      assert EditedMaterial(m, d).gstRate != m.gstRate;
    }
  }

  /** `toggleMaterialActiveAction`: a material of the business has `isActive` negated. */
  function Toggle(materials: Materials, businessId: Id, id: Id, fault: Option<Thrown>)
    : (r: (ActionResult<()>, Materials))
    ensures r.1.Keys == materials.Keys
    ensures forall k :: k in materials && k != id ==> r.1[k] == materials[k]
    ensures fault.Some? ==> r == (PrismaError(fault.value), materials)
    ensures r.0.Ok? <==> fault.None? && id in materials && materials[id].businessId == businessId
    ensures fault.None? && !r.0.Ok? ==> r == (Err(Some(NOT_FOUND), NotFoundDotMessage, None), materials)
    ensures r.0.Ok? ==> r.1[id].isActive == !materials[id].isActive
                        && r.1[id].(isActive := materials[id].isActive) == materials[id]
  {
    if fault.Some? then (PrismaError(fault.value), materials)
    else if !(id in materials && materials[id].businessId == businessId) then
      (Err(Some(NOT_FOUND), NotFoundDotMessage, None), materials)
    else (Ok(()), materials[id := materials[id].(isActive := !materials[id].isActive)])
  }

  /** Toggling twice gives back the table. */
  lemma ToggleTwice(materials: Materials, businessId: Id, id: Id)
    ensures Toggle(Toggle(materials, businessId, id, None).1, businessId, id, None).1 == materials
  {
    var once := Toggle(materials, businessId, id, None);
    if once.0.Ok? {
      assert once.1[id := materials[id]] == materials;
    }
  }
}
