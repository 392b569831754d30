/** The submit check of the add-business form (App.tsx, `AddBusinessModal`). */
module AddForm {
  import opened Wrappers
  import opened Types

  /** The characters `String.prototype.trim` strips: ECMAScript's WhiteSpace
      (tab, vertical tab, form feed, space, no-break space, the byte order
      mark and the Unicode space separators) and LineTerminator (line feed,
      carriage return, line and paragraph separators). */
  predicate IsWhitespace(c: char) {
    var n := c as int;
    n == 0x09 || n == 0x0A || n == 0x0B || n == 0x0C || n == 0x0D || n == 0x20
    || n == 0xA0 || n == 0x1680 || (0x2000 <= n <= 0x200A) || n == 0x2028 || n == 0x2029
    || n == 0x202F || n == 0x205F || n == 0x3000 || n == 0xFEFF
  }

  /** The string has only white space (the empty string included). */
  predicate AllWhitespace(s: string) {
    forall i :: 0 <= i < |s| ==> IsWhitespace(s[i])
  }

  /** The string neither starts nor ends with white space. */
  predicate IsTrimmed(s: string) {
    s == [] || (!IsWhitespace(s[0]) && !IsWhitespace(s[|s| - 1]))
  }

  /** `s` with its leading white space removed. */
  function TrimStart(s: string): (r: string)
    ensures |r| <= |s| && r == s[|s| - |r|..]
    ensures AllWhitespace(s[..|s| - |r|])
    ensures r == [] || !IsWhitespace(r[0])
  {
    if s != [] && IsWhitespace(s[0]) then TrimStart(s[1..]) else s
  }

  /** `s` with its trailing white space removed. */
  function TrimEnd(s: string): (r: string)
    ensures |r| <= |s| && r == s[..|r|]
    ensures AllWhitespace(s[|r|..])
    ensures r == [] || !IsWhitespace(r[|r| - 1])
  {
    if s != [] && IsWhitespace(s[|s| - 1]) then TrimEnd(s[..|s| - 1]) else s
  }

  /** `s.trim()`: the middle of `s` between two runs of white space,
      itself neither starting nor ending with white space. */
  function Trim(s: string): (r: string)
    ensures IsTrimmed(r)
    ensures var lo := |s| - |TrimStart(s)|;
      && lo + |r| <= |s|
      && r == s[lo..lo + |r|]
      && AllWhitespace(s[..lo])
      && AllWhitespace(s[lo + |r|..])
    ensures IsTrimmed(s) ==> r == s
  {
    var t := TrimStart(s);
    var r := TrimEnd(t);
    assert r == [] || r[0] == t[0];
    assert s[|s| - |t|..][|r|..] == s[|s| - |t| + |r|..];
    r
  }

  /** A string trims to empty exactly when it is all white space. */
  lemma TrimEmptyIffBlank(s: string)
    ensures Trim(s) == "" <==> AllWhitespace(s)
  {
    if Trim(s) == "" {
      var t := TrimStart(s);
      assert t[|TrimEnd(t)|..] == t;
      assert t == [];
      assert s[..|s|] == s;
    }
  }

  /** Trimming twice is trimming once. */
  lemma TrimIdempotent(s: string)
    ensures Trim(Trim(s)) == Trim(s)
  {
  }

  /** The raw values of the form's fields at submission. */
  datatype FormInput = FormInput(
    name: string,
    category: Category,
    location: string,
    description: string,
    phone: string,
    website: string)

  /** The message the form shows when a required field is blank. */
  const RequiredFieldsMessage := "Name, location, and description are required fields."

  /** `value.trim() || undefined` for an optional field. */
  function OptionalField(s: string): (r: Option<string>)
    ensures r.None? <==> AllWhitespace(s)
    ensures r.Some? ==> r.value != "" && IsTrimmed(r.value) && r.value == Trim(s)
  {
    TrimEmptyIffBlank(s);
    var t := Trim(s);
    if t == "" then None else Some(t)
  }

  /** An optional field as the form submits it: absent, or non-empty and trimmed. */
  predicate OptionalWellFormed(o: Option<string>) {
    o.Some? ==> o.value != "" && IsTrimmed(o.value)
  }

  /** A payload the form can produce: required fields not blank, optional
      fields normalised. */
  predicate WellFormed(d: NewBusiness) {
    && !AllWhitespace(d.name)
    && !AllWhitespace(d.location)
    && !AllWhitespace(d.description)
    && OptionalWellFormed(d.phone)
    && OptionalWellFormed(d.website)
  }

  /** `handleSubmit`'s check: reject when name, location or description is
      blank after trimming; otherwise build the payload with those three
      fields as typed and the optional fields trimmed or absent. */
  function Validate(f: FormInput): (r: Result<NewBusiness, string>)
    ensures r.Failure? <==> AllWhitespace(f.name) || AllWhitespace(f.location) || AllWhitespace(f.description)
    ensures r.Failure? ==> r.error == RequiredFieldsMessage
    ensures r.Success? ==> WellFormed(r.value)
    ensures r.Success? ==>
      && r.value.name == f.name
      && r.value.category == f.category
      && r.value.location == f.location
      && r.value.description == f.description
    ensures r.Success? ==>
      && (r.value.phone.None? <==> AllWhitespace(f.phone))
      && (r.value.phone.Some? ==> r.value.phone.value == Trim(f.phone))
      && (r.value.website.None? <==> AllWhitespace(f.website))
      && (r.value.website.Some? ==> r.value.website.value == Trim(f.website))
  {
    TrimEmptyIffBlank(f.name);
    TrimEmptyIffBlank(f.location);
    TrimEmptyIffBlank(f.description);
    if Trim(f.name) == "" || Trim(f.location) == "" || Trim(f.description) == "" then
      Failure(RequiredFieldsMessage)
    else
      Success(NewBusiness(f.name, f.category, f.location, f.description,
                          OptionalField(f.phone), OptionalField(f.website)))
  }

  /** The form filled in with a payload's fields (absent optional fields left empty). */
  function FormFor(d: NewBusiness): FormInput {
    FormInput(d.name, d.category, d.location, d.description, d.phone.GetOr(""), d.website.GetOr(""))
  }

  /** Every well-formed payload is what the form submits when filled in with
      its own fields: the check accepts it and normalisation leaves it as is. */
  lemma ValidateFormFor(d: NewBusiness)
    requires WellFormed(d)
    ensures Validate(FormFor(d)) == Success(d)
  {
    var f := FormFor(d);
    assert OptionalField(f.phone) == d.phone;
    assert OptionalField(f.website) == d.website;
  }
}
