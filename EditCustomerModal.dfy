/**
 * The edit-customer dialog's form prefill: when the fetched response carries a
 * customer, the form is reset to that customer's fields, every missing or
 * empty text field becoming `""`, the birth date cut at its first 'T'
 * (`split('T')[0]`), `isBlacklisted` defaulting to `false`, and `isActive`
 * copied as it is. Submitting runs the form's one validation rule (a
 * non-empty name) and then forwards the form values unchanged.
 */
module EditCustomerModal {
  import opened Options
  import opened Text

  /** `Omit<Customer, 'id' | 'createdAt' | 'updatedAt'>`: the fields the form edits and submits. */
  datatype CustomerPayload = CustomerPayload(
    name: Option<string>, nickname: Option<string>, cpf: Option<string>, rg: Option<string>,
    bornDate: Option<string>,
    gender: Option<string>, fatherName: Option<string>, motherName: Option<string>, spouse: Option<string>,
    email: Option<string>, company: Option<string>, occupation: Option<string>, street: Option<string>,
    number: Option<string>, neighborhood: Option<string>, city: Option<string>, uf: Option<string>,
    cep: Option<string>, complement: Option<string>, isBlacklisted: Option<bool>,
    obs: Option<string>, phone01: Option<string>, phone02: Option<string>, phone03: Option<string>,
    reference01: Option<string>, reference02: Option<string>, reference03: Option<string>,
    isActive: Option<bool>)

  /** A fetched customer: its identity and timestamps, and the editable fields. */
  datatype Customer = Customer(id: int, createdAt: Option<string>, updatedAt: Option<string>, fields: CustomerPayload)

  /** The values `reset` puts in the form: every text field a string. */
  datatype CustomerForm = CustomerForm(
    name: string, nickname: string, cpf: string, rg: string,
    bornDate: string,
    gender: string, fatherName: string, motherName: string, spouse: string,
    email: string, company: string, occupation: string, street: string,
    number: string, neighborhood: string, city: string, uf: string,
    cep: string, complement: string, isBlacklisted: bool,
    obs: string, phone01: string, phone02: string, phone03: string,
    reference01: string, reference02: string, reference03: string,
    isActive: Option<bool>)

  /** `v || ""`, which for a nullable string is the value when present and `""` when absent. */
  function OrEmpty(v: Option<string>): (r: string)
    ensures r == v.GetOr("")
  {
    if Truthy(v) then v.value else ""
  }

  /** `b || false`, which for a nullable boolean is the value when present and `false` when absent. */
  function OrFalse(b: Option<bool>): (r: bool)
    ensures r == b.GetOr(false)
  {
    b.Some? && b.value
  }

  /** `s.split('T')[0]`: the longest prefix of `s` without a 'T'. */
  function DatePart(s: string): (r: string)
    ensures r <= s
    ensures 'T' !in r
    ensures |r| < |s| ==> s[|r|] == 'T'
  {
    if s == [] || s[0] == 'T' then [] else [s[0]] + DatePart(s[1..])
  }

  /** An ISO timestamp `date + "T" + time` is cut back to its date. */
  lemma DatePartOfTimestamp(date: string, time: string)
    requires 'T' !in date
    ensures DatePart(date + "T" + time) == date
  {
    var s := date + "T" + time;
    var r := DatePart(s);
    assert s[..|date|] == date && s[|date|] == 'T';
    assert forall i :: 0 <= i < |date| ==> s[i] != 'T';
    assert |r| == |date|;
    assert r == s[..|r|] == date;
  }

  /** A string is its own date part exactly when it holds no 'T'; so cutting twice is cutting once. */
  lemma DatePartFixpoint(s: string)
    ensures DatePart(s) == s <==> 'T' !in s
    ensures DatePart(DatePart(s)) == DatePart(s)
  {
    var r := DatePart(s);
    if 'T' !in s {
      assert |r| == |s|;
    }
    assert DatePart(r) == r by {
      var q := DatePart(r);
      assert |q| == |r|;
    }
  }

  /** `customer.bornDate ? customer.bornDate.split('T')[0] : ""`. */
  function BornDateField(v: Option<string>): (r: string)
    ensures r == DatePart(v.GetOr(""))
    ensures r <= v.GetOr("") && 'T' !in r
  {
    if Truthy(v) then DatePart(v.value) else ""
  }

  /** The object passed to `reset`. */
  function Prefill(c: Customer): (f: CustomerForm)
    ensures f.name == c.fields.name.GetOr("") && f.nickname == c.fields.nickname.GetOr("")
    ensures f.cpf == c.fields.cpf.GetOr("") && f.rg == c.fields.rg.GetOr("")
    ensures f.bornDate == DatePart(c.fields.bornDate.GetOr(""))
    ensures f.gender == c.fields.gender.GetOr("") && f.fatherName == c.fields.fatherName.GetOr("")
    ensures f.motherName == c.fields.motherName.GetOr("") && f.spouse == c.fields.spouse.GetOr("")
    ensures f.email == c.fields.email.GetOr("") && f.company == c.fields.company.GetOr("")
    ensures f.occupation == c.fields.occupation.GetOr("") && f.street == c.fields.street.GetOr("")
    ensures f.number == c.fields.number.GetOr("") && f.neighborhood == c.fields.neighborhood.GetOr("")
    ensures f.city == c.fields.city.GetOr("") && f.uf == c.fields.uf.GetOr("")
    ensures f.cep == c.fields.cep.GetOr("") && f.complement == c.fields.complement.GetOr("")
    ensures f.isBlacklisted == c.fields.isBlacklisted.GetOr(false)
    ensures f.obs == c.fields.obs.GetOr("")
    ensures f.phone01 == c.fields.phone01.GetOr("") && f.phone02 == c.fields.phone02.GetOr("")
    ensures f.phone03 == c.fields.phone03.GetOr("")
    ensures f.reference01 == c.fields.reference01.GetOr("") && f.reference02 == c.fields.reference02.GetOr("")
    ensures f.reference03 == c.fields.reference03.GetOr("")
    ensures f.isActive == c.fields.isActive
  {
    var p := c.fields;
    CustomerForm(
      OrEmpty(p.name), OrEmpty(p.nickname), OrEmpty(p.cpf), OrEmpty(p.rg),
      BornDateField(p.bornDate),
      OrEmpty(p.gender), OrEmpty(p.fatherName), OrEmpty(p.motherName), OrEmpty(p.spouse),
      OrEmpty(p.email), OrEmpty(p.company), OrEmpty(p.occupation), OrEmpty(p.street),
      OrEmpty(p.number), OrEmpty(p.neighborhood), OrEmpty(p.city), OrEmpty(p.uf),
      OrEmpty(p.cep), OrEmpty(p.complement), OrFalse(p.isBlacklisted),
      OrEmpty(p.obs), OrEmpty(p.phone01), OrEmpty(p.phone02), OrEmpty(p.phone03),
      OrEmpty(p.reference01), OrEmpty(p.reference02), OrEmpty(p.reference03),
      p.isActive)
  }

  /** The `useEffect` on the response: reset the form only when the response carries a customer. */
  function OnCustomerResponse(current: Option<CustomerForm>, response: Option<Customer>): (r: Option<CustomerForm>)
    ensures response.None? ==> r == current
    ensures response.Some? ==> r.Some? && r.value == Prefill(response.value)
  {
    match response
    case None => current
    case Some(c) => Some(Prefill(c))
  }

  /** The values `handleSubmit` hands to `onFormSubmit`: every form field, as it stands. */
  function FormValues(f: CustomerForm): (p: CustomerPayload)
    ensures p.name == Some(f.name) && p.nickname == Some(f.nickname)
    ensures p.cpf == Some(f.cpf) && p.rg == Some(f.rg)
    ensures p.bornDate == Some(f.bornDate)
    ensures p.gender == Some(f.gender) && p.fatherName == Some(f.fatherName)
    ensures p.motherName == Some(f.motherName) && p.spouse == Some(f.spouse)
    ensures p.email == Some(f.email) && p.company == Some(f.company)
    ensures p.occupation == Some(f.occupation) && p.street == Some(f.street)
    ensures p.number == Some(f.number) && p.neighborhood == Some(f.neighborhood)
    ensures p.city == Some(f.city) && p.uf == Some(f.uf)
    ensures p.cep == Some(f.cep) && p.complement == Some(f.complement)
    ensures p.isBlacklisted == Some(f.isBlacklisted)
    ensures p.obs == Some(f.obs)
    ensures p.phone01 == Some(f.phone01) && p.phone02 == Some(f.phone02)
    ensures p.phone03 == Some(f.phone03)
    ensures p.reference01 == Some(f.reference01) && p.reference02 == Some(f.reference02)
    ensures p.reference03 == Some(f.reference03)
    ensures p.isActive == f.isActive
  {
    CustomerPayload(
      Some(f.name), Some(f.nickname), Some(f.cpf), Some(f.rg),
      Some(f.bornDate),
      Some(f.gender), Some(f.fatherName), Some(f.motherName), Some(f.spouse),
      Some(f.email), Some(f.company), Some(f.occupation), Some(f.street),
      Some(f.number), Some(f.neighborhood), Some(f.city), Some(f.uf),
      Some(f.cep), Some(f.complement), Some(f.isBlacklisted),
      Some(f.obs), Some(f.phone01), Some(f.phone02), Some(f.phone03),
      Some(f.reference01), Some(f.reference02), Some(f.reference03),
      f.isActive)
  }

  /**
   * `handleSubmit(onFormSubmit)`: the `required` rule on the name blocks an
   * empty name, and nothing reaches `onSubmit`; otherwise `onSubmit` receives
   * the form values unchanged.
   */
  function Submit(f: CustomerForm): (r: Option<CustomerPayload>)
    ensures r.None? <==> f.name == ""
    ensures r.Some? ==> r.value == FormValues(f)
  {
    if f.name == "" then None else Some(FormValues(f))
  }

  /** A customer with no (or an empty) name cannot be saved from the prefilled form. */
  lemma NamelessCannotBeSaved(c: Customer)
    requires !Truthy(c.fields.name)
    ensures Submit(Prefill(c)) == None
  {
  }

  /** Every text field and `isBlacklisted` present, the name non-empty, and the birth date a bare date. */
  predicate Normalised(p: CustomerPayload) {
    && p.name.Some? && p.name.value != "" && p.nickname.Some? && p.cpf.Some? && p.rg.Some?
    && p.bornDate.Some? && 'T' !in p.bornDate.value
    && p.gender.Some? && p.fatherName.Some? && p.motherName.Some? && p.spouse.Some?
    && p.email.Some? && p.company.Some? && p.occupation.Some? && p.street.Some?
    && p.number.Some? && p.neighborhood.Some? && p.city.Some? && p.uf.Some?
    && p.cep.Some? && p.complement.Some? && p.isBlacklisted.Some?
    && p.obs.Some? && p.phone01.Some? && p.phone02.Some? && p.phone03.Some?
    && p.reference01.Some? && p.reference02.Some? && p.reference03.Some?
  }

  /** Opening the dialog and saving without edits sends back exactly the stored fields iff they were normalised. */
  lemma SaveUneditedRoundTrip(c: Customer)
    ensures Submit(Prefill(c)) == Some(c.fields) <==> Normalised(c.fields)
  {
    var p := c.fields;
    if Normalised(p) {
      DatePartFixpoint(p.bornDate.value);
    }
    if Submit(Prefill(c)) == Some(p) {
      assert p.bornDate == Some(DatePart(p.bornDate.GetOr("")));
      DatePartFixpoint(p.bornDate.value);
    }
  }

  /** Prefilling from a form's values gives the form back iff its birth date holds no 'T'. */
  lemma PrefillOfSubmitted(f: CustomerForm, id: int, createdAt: Option<string>, updatedAt: Option<string>)
    ensures Prefill(Customer(id, createdAt, updatedAt, FormValues(f))) == f <==> 'T' !in f.bornDate
  {
    DatePartFixpoint(f.bornDate);
  }

  /** The prefill is a normalisation: a second save-and-reload changes nothing more. */
  lemma PrefillIdempotent(c: Customer)
    ensures Prefill(Customer(c.id, c.createdAt, c.updatedAt, FormValues(Prefill(c)))) == Prefill(c)
  {
    DatePartFixpoint(c.fields.bornDate.GetOr(""));
    PrefillOfSubmitted(Prefill(c), c.id, c.createdAt, c.updatedAt);
  }
}
