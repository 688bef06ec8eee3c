# Namo dashboard: the three editing state machines

This project models, in Dafny, the state logic of the Namo dashboard's three
editing panels, and proves what each of their event handlers does.

- **Contact form** (`components/contact-form.tsx`). This is a controlled
  editor for a profile record `{name, primaryEmail, additionalEmails,
  phoneNumbers}`. Adding an entry trims the pending input, skips blank input
  and does not check for duplicates. An entry can be replaced at an index or
  removed by index. One optional edit focus `(email|phone, index)` picks the
  entry shown as an inline input.
- **Profile section** (`components/profile-section.tsx`). The same record,
  plus a last-saved snapshot and one local-storage slot `profile-config`.
  Adding an entry does not trim, and it refuses an empty input or one already
  in the list. Save is refused while the primary email is empty. Cancel goes
  back to the snapshot. Loading on mount fills both the record and the snapshot.
- **Contacts directory** (`components/contacts-directory.tsx`). An ordered
  list of `{id, name, email, phone}`. Create needs a name and an email. It
  appends the contact at the end, with the clock reading in milliseconds as a
  decimal string for its id, then empties and hides the form. Remove by id is
  a filter. The form can be toggled, opened and cancelled.

Modules:

- `Optional` (optional.dfy): `Option`, standing for `T | null`.
- `Text` (text.dfy): `String.prototype.trim`, over the WhiteSpace and
  LineTerminator code points of ECMA-262 (sections 12.2 and 12.3).
- `Entries` (entries.dfy): the list operations on positions. Removal by
  position (`filter((_, i) => i !== index)`) is used by both profile editors.
  Replacement at a position is used by the contact form's inline edit only.
- `Records` (records.dfy): the profile record and its empty value.
- `ContactForm` (contact_form.dfy): the trimming append, the edit focus, and
  the class `Form` with one method per handler.
- `ProfileSection` (profile_section.dfy): the de-duplicating append, the
  classes `Storage` and `ProfileEditor`, and client methods for the
  save/remount and edit/cancel sequences.
- `ContactsDirectory` (contacts_directory.dfy): contacts, the decimal id, the
  filter by id and its lemmas, and the class `Directory`.

The list transforms are functions, as in the source (spread, `filter`,
`includes`). The components' `useState` fields are class fields that the
handler methods overwrite. Each method's `ensures` gives its whole new state
in terms of the old one and the specifying function. The lemmas beside those
functions state what the source promises.

Three behaviours of the code are easy to get wrong:

- The profile section's append does not trim its input. It only refuses an
  empty input or an exact duplicate.
- Contact ids are not guaranteed unique. Two creates in the same millisecond
  get the same id. What is proved instead is that different clock readings
  give different ids (`DecimalStringInjective`).
- Malformed stored data is not treated as absent: the source parses it
  without a guard (see Left out).

## Model

| member | source | states |
|---|---|---|
| Text.TrimStart | components/contact-form.tsx:33 | the result is a suffix of the input; everything dropped is white space; the result is empty or starts with a non-space |
| Text.TrimEnd | components/contact-form.tsx:33 | the result is a prefix of the input; everything dropped is white space; the result is empty or ends with a non-space |
| Text.Trim | components/contact-form.tsx:33 | `trim()` is an infix of the input, with only white space before and after it, and a non-empty result neither starts nor ends with white space |
| Text.TrimEmptyIffAllSpace | components/contact-form.tsx:33 | `newEmail.trim()` is falsy exactly when the input is all white space, the empty input included |
| Text.TrimIdempotent | components/contact-form.tsx:36 | trimming an already trimmed string changes nothing |
| Text.TrimUnpadded | components/contact-form.tsx:36 | a string with no white space at either end is its own trim |
| Entries.RemoveAt | components/contact-form.tsx:141-143 | filtering out position `index` deletes exactly that element and keeps the others in order; an index out of range keeps the whole list |
| Entries.RemoveAtKeepsDistinct | components/profile-section.tsx:77-89 | removal by index never creates a duplicate, so it keeps the profile lists duplicate-free |
| Entries.ReplaceAt | components/contact-form.tsx:53-54 | the copy-then-assign keeps the length, puts the value at `index` and keeps every other entry |
| Entries.ReplaceAtLastWins | components/contact-form.tsx:124 | successive keystrokes on one entry leave only the last value |
| Entries.ReplaceAtSame | components/contact-form.tsx:52-59 | writing an entry back unchanged leaves the list as it was |
| ContactForm.AppendTrimmed | components/contact-form.tsx:32-50 | no update when the input is all white space; otherwise the list grows by one at the end, earlier entries unchanged, the new one equal to the trimmed input |
| ContactForm.AppendedIsTrimmed | components/contact-form.tsx:33-36 | the appended entry is non-empty and has no surrounding white space |
| ContactForm.AppendTrimmedTwice | components/contact-form.tsx:36 | no de-duplication: adding the same value twice gives two equal entries side by side at the end |
| ContactForm.IsEditing | components/contact-form.tsx:120 | an email entry is shown as an inline input exactly when the focus is present and is that (kind, index) pair; the phone list uses the same test (line 185) |
| ContactForm.EditingIsUnique | components/contact-form.tsx:19-20 | at most one (kind, index) pair is rendered as an inline input |
| ContactForm.Form.constructor | components/contact-form.tsx:23-30 | the pending email and phone inputs start empty; record and focus are the parent's |
| ContactForm.Form.SetNewEmail | components/contact-form.tsx:160 | typing sets only the pending email |
| ContactForm.Form.SetNewPhone | components/contact-form.tsx:225 | typing sets only the pending phone |
| ContactForm.Form.AddEmail | components/contact-form.tsx:32-40 | a blank input changes nothing and stays pending; otherwise only `additionalEmails` changes, by the trimmed append, and the input is cleared |
| ContactForm.Form.AddPhone | components/contact-form.tsx:42-50 | the same on `phoneNumbers` only |
| ContactForm.Form.UpdateEmail | components/contact-form.tsx:52-59 | only the email at `index` is replaced; the other fields are unchanged |
| ContactForm.Form.UpdatePhone | components/contact-form.tsx:61-68 | only the phone at `index` is replaced; the other fields are unchanged |
| ContactForm.Form.RemoveEmail | components/contact-form.tsx:138-145 | only `additionalEmails` changes, by removal at `index` |
| ContactForm.Form.RemovePhone | components/contact-form.tsx:203-210 | only `phoneNumbers` changes, by removal at `index` |
| ContactForm.Form.SetName | components/contact-form.tsx:80-85 | only the name changes |
| ContactForm.Form.SetPrimaryEmail | components/contact-form.tsx:99-104 | only the primary email changes |
| ContactForm.Form.BeginEdit | components/contact-form.tsx:131 | the focus becomes exactly the clicked (kind, index), replacing any earlier one |
| ContactForm.Form.Blur | components/contact-form.tsx:125 | no entry is in edit afterwards |
| ProfileSection.AppendUnique | components/profile-section.tsx:57-75 | refused exactly when the input is empty or already in the list; otherwise the list grows by one at the end with the untrimmed input; a duplicate-free list stays duplicate-free |
| ProfileSection.AppendUniqueIdempotent | components/profile-section.tsx:58 | after a successful add, adding the same value again is refused |
| ProfileSection.Storage.constructor | components/profile-section.tsx:32 | local storage starts with whatever items earlier sessions left |
| ProfileSection.ProfileEditor.constructor | components/profile-section.tsx:19-28 | the profile starts as all-empty fields, with no snapshot and empty pending inputs |
| ProfileSection.ProfileEditor.Load | components/profile-section.tsx:31-38 | a stored profile becomes both the profile and the snapshot; with nothing stored both stay as they were |
| ProfileSection.ProfileEditor.SaveProfile | components/profile-section.tsx:40-49 | with an empty primary email nothing is stored and the snapshot stays; otherwise the slot gets the profile, the other keys are kept, and the snapshot becomes the profile |
| ProfileSection.ProfileEditor.CancelChanges | components/profile-section.tsx:51-55 | the profile becomes the snapshot when there is one; otherwise nothing changes |
| ProfileSection.ProfileEditor.SetNewEmail | components/profile-section.tsx:133 | typing sets only the pending email |
| ProfileSection.ProfileEditor.SetNewPhone | components/profile-section.tsx:162 | typing sets only the pending phone |
| ProfileSection.ProfileEditor.AddEmail | components/profile-section.tsx:57-65 | an empty or duplicate input changes nothing; otherwise only `additionalEmails` changes, by the de-duplicating append, and the input is cleared |
| ProfileSection.ProfileEditor.AddPhone | components/profile-section.tsx:67-75 | the same on `phoneNumbers` only |
| ProfileSection.ProfileEditor.RemoveEmail | components/profile-section.tsx:77-82 | only `additionalEmails` changes, by removal at `index` |
| ProfileSection.ProfileEditor.RemovePhone | components/profile-section.tsx:84-89 | only `phoneNumbers` changes, by removal at `index` |
| ProfileSection.ProfileEditor.SetName | components/profile-section.tsx:108 | only the name changes |
| ProfileSection.ProfileEditor.SetPrimaryEmail | components/profile-section.tsx:117-119 | only the primary email changes |
| ProfileSection.MountWithoutSavedProfile | components/profile-section.tsx:19-38 | mounting with nothing stored gives the empty profile and no snapshot |
| ProfileSection.SaveThenRemount | components/profile-section.tsx:31-47 | after a successful save, a newly mounted section loads exactly the saved profile as profile and snapshot |
| ProfileSection.EditThenCancel | components/profile-section.tsx:51-55 | after a save, the sequence "add an email, remove the phone at `index`, clear the name, cancel" gives back the saved profile, list order included; other sequences behave the same because no edit method's `modifies` clause names the snapshot `initialProfile` |
| ContactsDirectory.Digit | components/contacts-directory.tsx:30 | a digit below ten is written as a character from '0' to '9' |
| ContactsDirectory.DecimalString | components/contacts-directory.tsx:30 | `toString()` of the clock reading is a non-empty string of decimal digits without a leading zero |
| ContactsDirectory.DecimalStringInjective | components/contacts-directory.tsx:30 | two creates get the same id only if the clock read the same millisecond |
| ContactsDirectory.CanCreate | components/contacts-directory.tsx:26 | a create goes ahead exactly when the name and the email are both non-empty; the phone plays no part |
| ContactsDirectory.NewContact | components/contacts-directory.tsx:29-32 | the new contact carries a non-empty id from the clock and the form's name, email and phone |
| ContactsDirectory.WithoutId | components/contacts-directory.tsx:40 | after removal by id exactly the contacts with another id remain, and the list does not grow |
| ContactsDirectory.WithoutIdCounts | components/contacts-directory.tsx:40 | every contact with another id keeps all its copies, and every contact with the removed id loses all of them |
| ContactsDirectory.WithoutAbsentId | components/contacts-directory.tsx:39-41 | removing an id that no contact has leaves the list unchanged |
| ContactsDirectory.WithoutIdAppend | components/contacts-directory.tsx:40 | the filter keeps order: it distributes over concatenation |
| ContactsDirectory.RemoveUndoesCreate | components/contacts-directory.tsx:25-41 | removing a just-created contact whose id is new gives back the earlier list |
| ContactsDirectory.Directory.constructor | components/contacts-directory.tsx:17-23 | no contacts; the form starts hidden and empty |
| ContactsDirectory.Directory.SetName | components/contacts-directory.tsx:76-78 | typing changes only the form's name |
| ContactsDirectory.Directory.SetEmail | components/contacts-directory.tsx:92-94 | typing changes only the form's email |
| ContactsDirectory.Directory.SetPhone | components/contacts-directory.tsx:107-109 | typing changes only the form's phone |
| ContactsDirectory.Directory.AddContact | components/contacts-directory.tsx:25-37 | without a name or an email, contacts, form data and visibility are unchanged; otherwise one new contact is appended at the end, earlier ones untouched, and the form is emptied and hidden |
| ContactsDirectory.Directory.RemoveContact | components/contacts-directory.tsx:39-41 | the contacts become the filter by id of the old contacts |
| ContactsDirectory.Directory.ToggleForm | components/contacts-directory.tsx:53 | the header button flips the form's visibility |
| ContactsDirectory.Directory.OpenForm | components/contacts-directory.tsx:146 | the empty-state button shows the form |
| ContactsDirectory.Directory.CancelForm | components/contacts-directory.tsx:124-127 | cancel hides and empties the form; the contacts are untouched |
| ContactsDirectory.CreateScenarios | components/contacts-directory.tsx:25-36 | a create without a name adds nothing and keeps the form open; one with an empty phone is accepted |

## Left out

- Rendering, styling and icons in all three components. These only present the state.
- `localStorage`, `JSON.stringify` and `JSON.parse` (components/profile-section.tsx:32-34, 46). The slot holds the record itself, in a key-to-profile map, so no JSON text is modelled. The source parses without a try/catch, so a malformed stored value throws on mount; that failure is not modelled. An empty stored string, which `if (saved)` treats as absent, cannot arise because the model stores records, not text.
- `alert` (components/profile-section.tsx:42, 48). This is a UI side effect. `SaveProfile` returns which of the two messages would be shown.
- `Date.now()` (components/contacts-directory.tsx:30). The clock reading is the parameter `now` of `AddContact`, a whole number of milliseconds.
- ContactForm.Form.UpdateEmail: requires an index inside the list. An assignment past the end of a JavaScript array, which would make it sparse, is not modelled. The same holds for ContactForm.Form.UpdatePhone.
- Text.Trim: works on Unicode scalar values. The source's strings are UTF-16 code units; the white-space set is the same, but surrogate pairs are not modelled.
- The `contacts` and `editingIndex` props of the contact form belong to its parent. The model keeps them as fields of `Form` and takes the parent to store every record and focus the form sends. The dashboard page (app/dashboard/page.tsx) does not render the contact form.
- The edit button of a contact (components/contacts-directory.tsx:180-186) has no handler. No update operation is modelled.
- The dashboard page, navigation, header, stats card and contact list (app/dashboard/page.tsx, components/dashboard-nav.tsx, components/dashboard-header.tsx, components/quick-stats-card.tsx, components/contact-list.tsx). These are presentation only. The page matters in one respect: it unmounts and remounts the profile section on tab switches, which `SaveThenRemount` models.
