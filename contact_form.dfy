/**
 * The contact form: a controlled editor for a profile record. The record and
 * the edit focus belong to the parent, which receives every new record through
 * `onUpdate` and every new focus through `onEditingIndexChange`; the form
 * itself only keeps the two pending inputs for new entries.
 */
module ContactForm {
  import opened Optional
  import opened Records
  import Text
  import Entries

  /** The `type` of an edit focus: which of the two lists the entry is in. */
  datatype EntryKind = Email | Phone

  /** `{ type, index }`: the one entry shown as an inline input. */
  datatype EditFocus = EditFocus(kind: EntryKind, index: int)

  /**
   * The list after `handleAddEmail` / `handleAddPhone`: `None` when the input
   * trims to nothing (no update is sent), otherwise the list with the trimmed
   * input appended. Equal entries are not rejected.
   */
  function AppendTrimmed(entries: seq<string>, input: string): (r: Option<seq<string>>)
    ensures r.None? <==> Text.AllSpace(input)
    ensures r.Some? ==> |r.value| == |entries| + 1 && r.value[..|entries|] == entries
    ensures r.Some? ==> r.value[|entries|] == Text.Trim(input)
  {
    var t := Text.Trim(input);
    Text.TrimEmptyIffAllSpace(input);
    if t == "" then None else Some(entries + [t])
  }

  /** The entry stored is never blank and has no surrounding white space: trimming it again changes nothing. */
  lemma AppendedIsTrimmed(entries: seq<string>, input: string)
    requires !Text.AllSpace(input)
    ensures var added := AppendTrimmed(entries, input).value[|entries|];
      added != "" && Text.Trim(added) == added
  {
    Text.TrimEmptyIffAllSpace(input);
    Text.TrimIdempotent(input);
  }

  /** Adding the same value twice gives two equal entries, side by side at the end. */
  lemma AppendTrimmedTwice(entries: seq<string>, input: string)
    requires !Text.AllSpace(input)
    ensures var t := Text.Trim(input);
      && AppendTrimmed(entries, input) == Some(entries + [t])
      && AppendTrimmed(entries + [t], input) == Some(entries + [t, t])
  {
    var t := Text.Trim(input);
    var once := AppendTrimmed(entries, input).value;
    assert once == entries + [t];
    var twice := AppendTrimmed(once, input).value;
    assert twice == once + [t];
    assert once + [t] == entries + [t, t];
  }

  /** Whether the entry `index` of list `kind` is rendered as an input rather than a button. */
  predicate IsEditing(focus: Option<EditFocus>, kind: EntryKind, index: int): (editing: bool)
    ensures editing <==> focus == Some(EditFocus(kind, index))
  {
    focus.Some? && focus.value.kind == kind && focus.value.index == index
  }

  /** At most one entry is in inline edit at any time. */
  lemma EditingIsUnique(focus: Option<EditFocus>, k1: EntryKind, i1: int, k2: EntryKind, i2: int)
    requires IsEditing(focus, k1, i1) && IsEditing(focus, k2, i2)
    ensures k1 == k2 && i1 == i2
  {
  }

  /**
   * The form together with the record and the focus its parent holds for it;
   * the parent is taken to store whatever the form sends it.
   */
  class Form {
    var contacts: ProfileData
    var editingIndex: Option<EditFocus>
    var newEmail: string
    var newPhone: string

    /** Mounting the form: both pending inputs start empty. */
    constructor (contacts: ProfileData, editingIndex: Option<EditFocus>)
      ensures this.contacts == contacts && this.editingIndex == editingIndex
      ensures newEmail == "" && newPhone == ""
    {
      this.contacts := contacts;
      this.editingIndex := editingIndex;
      newEmail := "";
      newPhone := "";
    }

    /** Typing in the new-email input. */
    method SetNewEmail(value: string)
      modifies this`newEmail
      ensures newEmail == value
    {
      newEmail := value;
    }

    /** Typing in the new-phone input. */
    method SetNewPhone(value: string)
      modifies this`newPhone
      ensures newPhone == value
    {
      newPhone := value;
    }

    /** `handleAddEmail`: a non-blank input is appended trimmed and then cleared; a blank one changes nothing. */
    method AddEmail()
      modifies this`contacts, this`newEmail
      ensures var added := AppendTrimmed(old(contacts.additionalEmails), old(newEmail));
        if added.Some? then
          contacts == old(contacts).(additionalEmails := added.value) && newEmail == ""
        else
          contacts == old(contacts) && newEmail == old(newEmail)
    {
      var added := AppendTrimmed(contacts.additionalEmails, newEmail);
      if added.Some? {
        contacts := contacts.(additionalEmails := added.value);
        newEmail := "";
      }
    }

    /** `handleAddPhone`: the same on the phone numbers. */
    method AddPhone()
      modifies this`contacts, this`newPhone
      ensures var added := AppendTrimmed(old(contacts.phoneNumbers), old(newPhone));
        if added.Some? then
          contacts == old(contacts).(phoneNumbers := added.value) && newPhone == ""
        else
          contacts == old(contacts) && newPhone == old(newPhone)
    {
      var added := AppendTrimmed(contacts.phoneNumbers, newPhone);
      if added.Some? {
        contacts := contacts.(phoneNumbers := added.value);
        newPhone := "";
      }
    }

    /** `handleUpdateEmail`: a keystroke in the inline input of an additional email. */
    method UpdateEmail(index: nat, value: string)
      requires index < |contacts.additionalEmails|
      modifies this`contacts
      ensures contacts == old(contacts).(additionalEmails := Entries.ReplaceAt(old(contacts.additionalEmails), index, value))
    {
      contacts := contacts.(additionalEmails := Entries.ReplaceAt(contacts.additionalEmails, index, value));
    }

    /** `handleUpdatePhone`: a keystroke in the inline input of a phone number. */
    method UpdatePhone(index: nat, value: string)
      requires index < |contacts.phoneNumbers|
      modifies this`contacts
      ensures contacts == old(contacts).(phoneNumbers := Entries.ReplaceAt(old(contacts.phoneNumbers), index, value))
    {
      contacts := contacts.(phoneNumbers := Entries.ReplaceAt(contacts.phoneNumbers, index, value));
    }

    /** The remove button of an additional email: filters out that position. */
    method RemoveEmail(index: int)
      modifies this`contacts
      ensures contacts == old(contacts).(additionalEmails := Entries.RemoveAt(old(contacts.additionalEmails), index))
    {
      contacts := contacts.(additionalEmails := Entries.RemoveAt(contacts.additionalEmails, index));
    }

    /** The remove button of a phone number: filters out that position. */
    method RemovePhone(index: int)
      modifies this`contacts
      ensures contacts == old(contacts).(phoneNumbers := Entries.RemoveAt(old(contacts.phoneNumbers), index))
    {
      contacts := contacts.(phoneNumbers := Entries.RemoveAt(contacts.phoneNumbers, index));
    }

    /** Typing in the name field: only the name changes. */
    method SetName(value: string)
      modifies this`contacts
      ensures contacts == old(contacts).(name := value)
    {
      contacts := contacts.(name := value);
    }

    /** Typing in the primary email field: only the primary email changes. */
    method SetPrimaryEmail(value: string)
      modifies this`contacts
      ensures contacts == old(contacts).(primaryEmail := value)
    {
      contacts := contacts.(primaryEmail := value);
    }

    /** Clicking an entry: it becomes the one entry in edit, whatever was in edit before. */
    method BeginEdit(kind: EntryKind, index: int)
      modifies this`editingIndex
      ensures editingIndex == Some(EditFocus(kind, index))
      ensures forall k, i :: IsEditing(editingIndex, k, i) <==> k == kind && i == index
    {
      editingIndex := Some(EditFocus(kind, index));
    }

    /** Leaving the inline input: no entry is in edit. */
    method Blur()
      modifies this`editingIndex
      ensures editingIndex == None
      ensures forall k, i :: !IsEditing(editingIndex, k, i)
    {
      editingIndex := None;
    }
  }
}
