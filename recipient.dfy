/** A customer's saved e-transfer payee, with contact validation. */
module Recipients {
  import opened Common
  import opened JavaText
  import opened Ids

  const NoOwnerMessage := "Customer with a recipient list must exist"
  const BlankNameMessage := "Recipient name must not be blank"
  const BlankEmailMessage := "Recipient email must not be blank"
  const BadEmailMessage := "Recipient's email is not in a valid format"
  const BadPhoneMessage := "Recipient's phone number contains invalid characters"

  /** validateRecipientInfo: a non-blank name, a non-blank e-mail whose
      trimmed text matches the e-mail pattern, and a phone number that is
      null, blank, or whose trimmed text matches the phone pattern; the
      first failing check decides the message. */
  function RecipientInfoValidation(name: Option<string>, email: Option<string>, phone: Option<string>): (r: Outcome)
    ensures r.Pass? <==>
      !NullOrBlank(name) && !NullOrBlank(email) && MatchesEmailPattern(Trim(email.value))
      && (NullOrBlank(phone) || MatchesPhonePattern(Trim(phone.value)))
    ensures NullOrBlank(name) ==> r == Fail(IllegalArgument(BlankNameMessage))
    ensures !NullOrBlank(name) && NullOrBlank(email) ==> r == Fail(IllegalArgument(BlankEmailMessage))
    ensures !NullOrBlank(name) && !NullOrBlank(email) && !MatchesEmailPattern(Trim(email.value)) ==>
      r == Fail(IllegalArgument(BadEmailMessage))
    ensures !NullOrBlank(name) && !NullOrBlank(email) && MatchesEmailPattern(Trim(email.value))
            && !NullOrBlank(phone) && !MatchesPhonePattern(Trim(phone.value))
            ==> r == Fail(IllegalArgument(BadPhoneMessage))
  {
    if NullOrBlank(name) then Fail(IllegalArgument(BlankNameMessage))
    else if NullOrBlank(email) then Fail(IllegalArgument(BlankEmailMessage))
    else
      EmailShapedIffPattern(Trim(email.value));
      if !IsEmailShaped(Trim(email.value)) then Fail(IllegalArgument(BadEmailMessage))
      else if !NullOrBlank(phone) && !MatchesPhonePattern(Trim(phone.value)) then Fail(IllegalArgument(BadPhoneMessage))
      else Pass
  }

  /** The phone number a recipient stores: trimmed, or null when blank. */
  function StoredPhone(phone: Option<string>): (r: Option<string>)
    ensures r.None? <==> NullOrBlank(phone)
    ensures r.Some? ==> r.value == Trim(phone.value)
  {
    if !NullOrBlank(phone) then Some(Trim(phone.value)) else None
  }

  /** What a recipient's stored contact data satisfies: trimmed name and
      e-mail, an e-mail that matches the pattern, and a phone number that is
      absent or trimmed and matching its pattern. */
  ghost predicate ValidContact(name: string, email: string, phone: Option<string>)
  {
    IsTrimmedText(name) && IsTrimmedText(email) && MatchesEmailPattern(email)
    && (phone.Some? ==> IsTrimmedText(phone.value) && MatchesPhonePattern(phone.value))
  }

  /** Whatever passes validation is stored as valid contact data. */
  lemma ValidatedContactIsValid(name: Option<string>, email: Option<string>, phone: Option<string>)
    requires RecipientInfoValidation(name, email, phone).Pass?
    ensures ValidContact(Trim(name.value), Trim(email.value), StoredPhone(phone))
  {
    TrimIsTrimmedText(name.value);
    TrimIsTrimmedText(email.value);
    if !NullOrBlank(phone) {
      TrimIsTrimmedText(phone.value);
    }
  }

  class Recipient {
    const id: string
    const owner: Customer
    var name: string
    var email: string
    var phoneNumber: Option<string>

    /** Every recipient holds valid contact data. */
    ghost predicate Valid()
      reads this
    {
      ValidContact(name, email, phoneNumber)
    }

    /** Stores contact data already validated and normalised. */
    constructor (id: string, owner: Customer, name: string, email: string, phone: Option<string>)
      requires ValidContact(name, email, phone)
      ensures Valid()
      ensures this.id == id && this.owner == owner
      ensures this.name == name && this.email == email && phoneNumber == phone
    {
      this.id := id;
      this.owner := owner;
      this.name := name;
      this.email := email;
      phoneNumber := phone;
    }

    /** new Recipient(...): the owner must exist and the contact data must
        validate before an id is drawn. */
    static method Create(owner: Option<Customer>, name: Option<string>, email: Option<string>,
                         phone: Option<string>, ids: IdGenerator)
      returns (r: Result<Recipient>)
      modifies ids
      ensures owner.None? ==> r == Err(IllegalArgument(NoOwnerMessage))
      ensures owner.Some? && RecipientInfoValidation(name, email, phone).Fail? ==>
        r == Err(RecipientInfoValidation(name, email, phone).error)
      ensures r.Err? ==> ids.next == old(ids.next)
      ensures r.Ok? <==> owner.Some? && RecipientInfoValidation(name, email, phone).Pass?
      ensures r.Ok? ==>
        var p := r.value;
        fresh(p) && p.Valid() && p.id == Uid(old(ids.next)) && ids.next == old(ids.next) + 1
        && p.owner == owner.value && p.name == Trim(name.value) && p.email == Trim(email.value)
        && p.phoneNumber == StoredPhone(phone)
    {
      if owner.None? {
        return Err(IllegalArgument(NoOwnerMessage));
      }
      var v := RecipientInfoValidation(name, email, phone);
      if v.Fail? {
        return Err(v.error);
      }
      ValidatedContactIsValid(name, email, phone);
      var id := ids.Fresh();
      var p := new Recipient(id, owner.value, Trim(name.value), Trim(email.value), StoredPhone(phone));
      return Ok(p);
    }

    /** updateRecipientinfo: validates first; on a failure nothing changes,
        otherwise the new data is stored trimmed as at construction. */
    method UpdateRecipientInfo(name: Option<string>, email: Option<string>, phone: Option<string>)
      returns (r: Outcome)
      modifies this
      ensures r == RecipientInfoValidation(name, email, phone)
      ensures r.Fail? ==>
        this.name == old(this.name) && this.email == old(this.email) && phoneNumber == old(phoneNumber)
      ensures r.Pass? ==>
        this.name == Trim(name.value) && this.email == Trim(email.value) && phoneNumber == StoredPhone(phone)
      ensures old(Valid()) ==> Valid()
    {
      r := RecipientInfoValidation(name, email, phone);
      if r.Pass? {
        ValidatedContactIsValid(name, email, phone);
        Store(Trim(name.value), Trim(email.value), StoredPhone(phone));
      }
    }

    /** Replaces the contact data with data already validated and normalised. */
    method Store(name: string, email: string, phone: Option<string>)
      requires ValidContact(name, email, phone)
      modifies this
      ensures this.name == name && this.email == email && phoneNumber == phone && Valid()
    {
      this.name, this.email, phoneNumber := name, email, phone;
    }

    /** isOwnedBy: Objects.equals(owner, customer), with the owner fixed at
        construction. */
    function IsOwnedBy(customer: Option<Customer>): (r: bool)
      ensures r <==> customer == Some(owner)
    {
      customer.Some? && customer.value == owner
    }
  }
}
