/**
 * The contacts directory: an ordered list of contacts, grown from an add form
 * and shrunk by removal by id. It lives for one session only.
 */
module ContactsDirectory {

  /** `Contact`: one directory entry. */
  datatype Contact = Contact(id: string, name: string, email: string, phone: string)

  /** `formData`: the three inputs of the add form. */
  datatype ContactDraft = ContactDraft(name: string, email: string, phone: string)

  /** The form as it is first shown and after every reset. */
  const EmptyDraft := ContactDraft("", "", "")

  /** The decimal digit for `d`. */
  function Digit(d: nat): (c: char)
    requires d < 10
    ensures '0' <= c <= '9'
  {
    ('0' as int + d) as char
  }

  /** `n.toString()` for a whole number: its decimal digits, without leading zeros. */
  function DecimalString(n: nat): (r: string)
    ensures |r| >= 1 && forall i :: 0 <= i < |r| ==> '0' <= r[i] <= '9'
    ensures (|r| == 1) == (n < 10)
    ensures |r| > 1 ==> r[0] != '0'
  {
    if n < 10 then [Digit(n)] else DecimalString(n / 10) + [Digit(n % 10)]
  }

  /** Two clock readings give the same id only when they are the same millisecond. */
  lemma {:induction false} DecimalStringInjective(a: nat, b: nat)
    requires DecimalString(a) == DecimalString(b)
    ensures a == b
  {
    var s := DecimalString(a);
    if a < 10 {
      assert Digit(a) == s[0] == Digit(b);
    } else {
      assert DecimalString(a / 10) == s[..|s| - 1] == DecimalString(b / 10);
      DecimalStringInjective(a / 10, b / 10);
      assert Digit(a % 10) == s[|s| - 1] == Digit(b % 10);
    }
  }

  /** The validation of `handleAddContact`: a name and an email are required, the phone is not. */
  predicate CanCreate(form: ContactDraft): (ok: bool)
    ensures ok <==> |form.name| > 0 && |form.email| > 0
  {
    form.name != "" && form.email != ""
  }

  /** `{ id: Date.now().toString(), ...formData }`, with the clock reading `now` in milliseconds. */
  function NewContact(now: nat, form: ContactDraft): (c: Contact)
    ensures c.id == DecimalString(now) && c.id != ""
    ensures c.name == form.name && c.email == form.email && c.phone == form.phone
  {
    Contact(DecimalString(now), form.name, form.email, form.phone)
  }

  /**
   * `contacts.filter((contact) => contact.id !== id)`: exactly the contacts
   * with another id remain, and the list never grows.
   */
  function WithoutId(contacts: seq<Contact>, id: string): (r: seq<Contact>)
    ensures |r| <= |contacts|
    ensures forall c {:trigger c in r} :: c in r <==> c in contacts && c.id != id
  {
    if contacts == [] then []
    else
      var rest := WithoutId(contacts[1..], id);
      assert contacts == [contacts[0]] + contacts[1..];
      (if contacts[0].id != id then [contacts[0]] else []) + rest
  }

  /** One step of the filter: the first contact is kept or dropped, the rest is filtered on its own. */
  lemma WithoutIdCons(c: Contact, rest: seq<Contact>, id: string)
    ensures WithoutId([c] + rest, id) == (if c.id != id then [c] else []) + WithoutId(rest, id)
  {
    assert ([c] + rest)[0] == c && ([c] + rest)[1..] == rest;
  }

  /** Every contact with another id keeps all its copies, every contact with that id loses all of them. */
  lemma {:induction false} WithoutIdCounts(contacts: seq<Contact>, id: string, c: Contact)
    ensures multiset(WithoutId(contacts, id))[c] == if c.id == id then 0 else multiset(contacts)[c]
  {
    if contacts != [] {
      var head, rest := contacts[0], contacts[1..];
      assert contacts == [head] + rest;
      WithoutIdCons(head, rest, id);
      WithoutIdCounts(rest, id, c);
      var kept := if head.id != id then [head] else [];
      assert multiset(WithoutId(contacts, id)) == multiset(kept) + multiset(WithoutId(rest, id));
      assert multiset(contacts) == multiset([head]) + multiset(rest);
    }
  }

  /** An id no contact has leaves the list as it was. */
  lemma {:induction false} WithoutAbsentId(contacts: seq<Contact>, id: string)
    requires forall c :: c in contacts ==> c.id != id
    ensures WithoutId(contacts, id) == contacts
  {
    if contacts != [] {
      assert contacts[0] in contacts;
      WithoutAbsentId(contacts[1..], id);
      assert contacts == [contacts[0]] + contacts[1..];
    }
  }

  /** Removal keeps the order of the rest: filtering a concatenation filters each part in place. */
  lemma {:induction false} WithoutIdAppend(a: seq<Contact>, b: seq<Contact>, id: string)
    ensures WithoutId(a + b, id) == WithoutId(a, id) + WithoutId(b, id)
  {
    if a == [] {
      assert a + b == b;
    } else {
      assert a == [a[0]] + a[1..] && a + b == [a[0]] + (a[1..] + b);
      WithoutIdCons(a[0], a[1..] + b, id);
      WithoutIdCons(a[0], a[1..], id);
      WithoutIdAppend(a[1..], b, id);
    }
  }

  /** Removing a just-created contact whose id no other contact has gives back the list from before. */
  lemma RemoveUndoesCreate(contacts: seq<Contact>, c: Contact)
    requires forall d :: d in contacts ==> d.id != c.id
    ensures WithoutId(contacts + [c], c.id) == contacts
  {
    WithoutIdAppend(contacts, [c], c.id);
    WithoutAbsentId(contacts, c.id);
    assert WithoutId([c], c.id) == [];
  }

  /** The contacts section's state. */
  class Directory {
    var contacts: seq<Contact>
    var showForm: bool
    var formData: ContactDraft

    /** Mounting: no contacts, the form hidden and empty. */
    constructor ()
      ensures contacts == [] && !showForm && formData == EmptyDraft
    {
      contacts := [];
      showForm := false;
      formData := EmptyDraft;
    }

    /** Typing in the name input of the form. */
    method SetName(value: string)
      modifies this`formData
      ensures formData == old(formData).(name := value)
    {
      formData := formData.(name := value);
    }

    /** Typing in the email input of the form. */
    method SetEmail(value: string)
      modifies this`formData
      ensures formData == old(formData).(email := value)
    {
      formData := formData.(email := value);
    }

    /** Typing in the phone input of the form. */
    method SetPhone(value: string)
      modifies this`formData
      ensures formData == old(formData).(phone := value)
    {
      formData := formData.(phone := value);
    }

    /**
     * `handleAddContact` with the clock reading `now`: without a name or an
     * email nothing changes; otherwise the new contact goes at the end and the
     * form is emptied and hidden.
     */
    method AddContact(now: nat)
      modifies this`contacts, this`formData, this`showForm
      ensures CanCreate(old(formData)) ==>
        contacts == old(contacts) + [NewContact(now, old(formData))] && formData == EmptyDraft && !showForm
      ensures !CanCreate(old(formData)) ==>
        contacts == old(contacts) && formData == old(formData) && showForm == old(showForm)
    {
      if formData.name != "" && formData.email != "" {
        contacts := contacts + [NewContact(now, formData)];
        formData := EmptyDraft;
        showForm := false;
      }
    }

    /** `handleRemoveContact`. */
    method RemoveContact(id: string)
      modifies this`contacts
      ensures contacts == WithoutId(old(contacts), id)
    {
      contacts := WithoutId(contacts, id);
    }

    /** The header's add button: shows a hidden form and hides a shown one. */
    method ToggleForm()
      modifies this`showForm
      ensures showForm == !old(showForm)
    {
      showForm := !showForm;
    }

    /** The button of the empty directory: shows the form. */
    method OpenForm()
      modifies this`showForm
      ensures showForm
    {
      showForm := true;
    }

    /** The form's cancel button: hides and empties the form, the contacts stay. */
    method CancelForm()
      modifies this`showForm, this`formData
      ensures !showForm && formData == EmptyDraft
    {
      showForm := false;
      formData := EmptyDraft;
    }
  }

  /** A contact without a phone is accepted; one without a name is not. */
  method CreateScenarios() returns (directory: Directory)
    ensures |directory.contacts| == 1
    ensures directory.contacts[0] == Contact(DecimalString(7), "Jo", "jo@x.com", "")
  {
    directory := new Directory();
    directory.OpenForm();
    directory.SetEmail("a@b.com");
    directory.SetPhone("555");
    directory.AddContact(5);
    assert directory.contacts == [] && directory.showForm;
    directory.SetName("Jo");
    directory.SetEmail("jo@x.com");
    directory.SetPhone("");
    directory.AddContact(7);
  }
}
