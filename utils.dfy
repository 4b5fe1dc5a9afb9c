/** Shared helpers: GSTIN-to-PAN extraction, blank-string clean-up, name normalisation, the validation result. */
module Utils {
  import opened Wrappers
  import opened Text
  import opened Entities
  import opened Validation

  // ---- extractPanFromGstin --------------------------------------------------

  /** What the GSTIN is checked as: trimmed, then upper-cased. */
  function NormalizedGstin(g: string): string
  {
    ToUpper(Trim(g))
  }

  /** `extractPanFromGstin`: the PAN embedded in a well-formed GSTIN, else nothing. */
  function ExtractPanFromGstin(g: string): (r: Option<string>)
    ensures r.Some? <==> IsGstin(NormalizedGstin(g))
    ensures r.Some? ==> r.value == NormalizedGstin(g)[2..12] && |r.value| == 10 && IsPan(r.value)
  {
    if g == "" then None
    else
      var n := NormalizedGstin(g);
      if IsGstin(n) then GstinHoldsPan(n); Some(n[2..12]) else None
  }

  lemma ToUpperIdempotent(s: string)
    ensures ToUpper(ToUpper(s)) == ToUpper(s)
  {
  }

  /** Extraction depends only on the normalised input: it ignores case and surrounding spaces. */
  lemma ExtractIgnoresNormalization(g: string)
    ensures ExtractPanFromGstin(g) == ExtractPanFromGstin(Trim(ToUpper(g)))
  {
    var t := Trim(ToUpper(g));
    TrimUpperCommute(g);
    TrimIdempotent(g);
    ToUpperIdempotent(Trim(g));
    assert t == ToUpper(Trim(g));
    TrimUpperCommute(Trim(g));
    assert NormalizedGstin(t) == NormalizedGstin(g);
  }

  /** The empty input gives no PAN. */
  lemma ExtractEmpty()
    ensures ExtractPanFromGstin("") == None
  {
  }

  // ---- normalizeEmptyStrings ------------------------------------------------

  /** A value of a submitted object: a string, `undefined`, or any other value, kept opaque. */
  datatype JsValue = Str(s: string) | Undefined | Other(repr: string)

  /** Strings are trimmed and blank ones become `undefined`; other values are kept. */
  function NormalizeValue(v: JsValue): (r: JsValue)
    ensures v.Str? && Trim(v.s) != "" ==> r == Str(Trim(v.s))
    ensures v.Str? && AllSpace(v.s) ==> r == Undefined
    ensures !v.Str? ==> r == v
  {
    TrimEmptyIff(if v.Str? then v.s else "");
    match v
    case Str(s) => if |Trim(s)| > 0 then Str(Trim(s)) else Undefined
    case _ => v
  }

  /** The object `normalizeEmptyStrings` returns. */
  function NormalizedObject(obj: map<string, JsValue>): (r: map<string, JsValue>)
    ensures r.Keys == obj.Keys
  {
    map k | k in obj :: NormalizeValue(obj[k])
  }

  /** `normalizeEmptyStrings`: one pass over the entries, writing each normalised value. */
  method NormalizeEmptyStrings(obj: map<string, JsValue>) returns (out: map<string, JsValue>)
    ensures out == NormalizedObject(obj)
  {
    out := map[];
    var pending := obj.Keys;
    while pending != {}
      invariant pending <= obj.Keys
      invariant out.Keys == obj.Keys - pending
      invariant forall k :: k in out ==> out[k] == NormalizeValue(obj[k])
      decreases pending
    {
      var k :| k in pending;
      out := out[k := NormalizeValue(obj[k])];
      pending := pending - {k};
    }
  }

  /** Normalising a value twice is normalising it once. */
  lemma NormalizeValueIdempotent(v: JsValue)
    ensures NormalizeValue(NormalizeValue(v)) == NormalizeValue(v)
  {
    if v.Str? && Trim(v.s) != "" {
      TrimIdempotent(v.s);
    }
  }

  /** `normalizeEmptyStrings` is idempotent. */
  lemma NormalizedObjectIdempotent(obj: map<string, JsValue>)
    ensures NormalizedObject(NormalizedObject(obj)) == NormalizedObject(obj)
  {
    forall k | k in obj
      ensures NormalizeValue(NormalizeValue(obj[k])) == NormalizeValue(obj[k])
    {
      NormalizeValueIdempotent(obj[k]);
    }
  }

  /** No string the clean-up leaves behind is blank or padded with spaces. */
  lemma NormalizedStringsTrimmed(obj: map<string, JsValue>, k: string)
    requires k in obj && NormalizedObject(obj)[k].Str?
    ensures var s := NormalizedObject(obj)[k].s; s != "" && Trim(s) == s
  {
    var v := obj[k];
    TrimEmptyIff(v.s);
    TrimIdempotent(v.s);
  }

  // ---- normalizeName --------------------------------------------------------

  /** `replace(/\s+/g, " ")`: every run of white space becomes one space. */
  function CollapseSpaces(s: string): (r: string)
    ensures forall i :: 0 <= i < |r| && IsSpace(r[i]) ==> r[i] == ' '
    ensures forall i :: 0 <= i && i + 1 < |r| ==> !(IsSpace(r[i]) && IsSpace(r[i + 1]))
    decreases |s|
  {
    if s == [] then []
    else if IsSpace(s[0]) then
      var rest := TrimStart(s[1..]);
      var tail := CollapseSpaces(rest);
      assert tail == [] || tail[0] == rest[0];
      [' '] + tail
    else
      var tail := CollapseSpaces(s[1..]);
      [s[0]] + tail
  }

  /** Every character of `r` is a plain space or one of `s`. */
  predicate SpacesOrFrom(r: string, s: string)
  {
    forall i :: 0 <= i < |r| ==> r[i] == ' ' || r[i] in s
  }

  /** Collapsing introduces no character but the plain space. */
  lemma {:induction false} CollapseSpacesFrom(s: string)
    ensures SpacesOrFrom(CollapseSpaces(s), s)
    decreases |s|
  {
    if s != [] {
      var rest := if IsSpace(s[0]) then TrimStart(s[1..]) else s[1..];
      CollapseSpacesFrom(rest);
      assert rest == s[|s| - |rest|..];
      SpacesOrFromCons(if IsSpace(s[0]) then ' ' else s[0], CollapseSpaces(rest), rest, s);
    }
  }

  lemma SpacesOrFromCons(x: char, tail: string, rest: string, s: string)
    requires SpacesOrFrom(tail, rest) && (x == ' ' || x in s)
    requires |rest| <= |s| && rest == s[|s| - |rest|..]
    ensures SpacesOrFrom([x] + tail, s)
  {
    var r := [x] + tail;
    forall i | 1 <= i < |r| ensures r[i] == ' ' || r[i] in s {
      assert r[i] == tail[i - 1];
      if r[i] != ' ' {
        var k :| 0 <= k < |rest| && rest[k] == r[i];
        assert s[|s| - |rest| + k] == r[i];
      }
    }
  }

  /** The characters `[a-zA-Z\s'-]` that survive the clean-up. */
  predicate NameChar(c: char)
  {
    IsLetter(c) || IsSpace(c) || c == '\'' || c == '-'
  }

  /** `replace(/[^a-zA-Z\s'-]/g, "")` */
  function KeepNameChars(s: string): (r: string)
    ensures forall i :: 0 <= i < |r| ==> NameChar(r[i]) && r[i] in s
    ensures forall c :: c in s && NameChar(c) ==> c in r
  {
    if s == [] then []
    else if NameChar(s[0]) then [s[0]] + KeepNameChars(s[1..])
    else KeepNameChars(s[1..])
  }

  /** Position `i` starts a word (`\b\w`). */
  predicate WordStart(s: string, i: int)
    requires 0 <= i < |s|
  {
    IsWordChar(s[i]) && (i == 0 || !IsWordChar(s[i - 1]))
  }

  /** `replace(/\b\w/g, c => c.toUpperCase())` */
  function CapitalizeWords(s: string): (r: string)
    ensures |r| == |s|
    ensures forall i :: 0 <= i < |s| ==> r[i] == (if WordStart(s, i) then UpperChar(s[i]) else s[i])
  {
    seq(|s|, i requires 0 <= i < |s| => if WordStart(s, i) then UpperChar(s[i]) else s[i])
  }

  /** `normalizeName` */
  function NormalizeName(name: string): string
  {
    CapitalizeWords(KeepNameChars(CollapseSpaces(Trim(name))))
  }

  /**
   * A normalised name holds only ASCII letters, plain spaces, apostrophes and
   * hyphens, and every letter that starts a word is upper-case.
   */
  lemma NormalizeNameShape(name: string)
    ensures var r := NormalizeName(name);
      && (forall i :: 0 <= i < |r| ==> IsLetter(r[i]) || r[i] == ' ' || r[i] == '\'' || r[i] == '-')
      && (forall i :: 0 <= i < |r| && IsLetter(r[i]) && (i == 0 || !IsLetter(r[i - 1])) ==> IsUpper(r[i]))
  {
    var c := CollapseSpaces(Trim(name));
    var k := KeepNameChars(c);
    var r := CapitalizeWords(k);
    forall i | 0 <= i < |k| ensures !IsDigit(k[i]) && k[i] != '_' && (IsSpace(k[i]) ==> k[i] == ' ')
    {
      assert NameChar(k[i]);
      if IsSpace(k[i]) {
        var j :| 0 <= j < |c| && c[j] == k[i];
      }
    }
    forall i | 0 <= i < |r| && IsLetter(r[i]) && (i == 0 || !IsLetter(r[i - 1]))
      ensures IsUpper(r[i])
    {
      if i > 0 {
        assert IsLetter(k[i - 1]) <==> IsLetter(r[i - 1]);
      }
      assert WordStart(k, i);
    }
  }
}
