/**
 * The profile section: edits a profile record, keeps the last saved copy for
 * cancel, and saves to and loads from one slot of the browser's local storage.
 */
module ProfileSection {
  import opened Optional
  import opened Records
  import Entries

  /** The one storage slot the profile lives in. */
  const StorageKey: string := "profile-config"

  /** Local storage as the profile section uses it: one stored profile per key. */
  class Storage {
    var items: map<string, ProfileData>

    /** Storage holding `items`, e.g. what earlier sessions left behind. */
    constructor (items: map<string, ProfileData>)
      ensures this.items == items
    {
      this.items := items;
    }
  }

  /**
   * The list after `handleAddEmail` / `handleAddPhone`: `None` (nothing changes)
   * when the input is empty or already in the list verbatim, otherwise the list
   * with the input appended as typed.
   */
  function AppendUnique(entries: seq<string>, input: string): (r: Option<seq<string>>)
    ensures r.None? <==> input == "" || input in entries
    ensures r.Some? ==> |r.value| == |entries| + 1 && r.value[..|entries|] == entries
    ensures r.Some? ==> r.value[|entries|] == input && input !in entries
    ensures r.Some? && Entries.Distinct(entries) ==> Entries.Distinct(r.value)
  {
    if input != "" && input !in entries then Some(entries + [input]) else None
  }

  /** Once a value has been added, adding it again is refused: repeating the add is idempotent. */
  lemma AppendUniqueIdempotent(entries: seq<string>, input: string)
    requires AppendUnique(entries, input).Some?
    ensures AppendUnique(AppendUnique(entries, input).value, input) == None
  {
    var once := AppendUnique(entries, input).value;
    assert once[|entries|] == input;
  }

  /** The profile section's state. */
  class ProfileEditor {
    var profile: ProfileData
    var initialProfile: Option<ProfileData>
    var newEmail: string
    var newPhone: string
    const storage: Storage

    /** Mounting: every field empty and no saved snapshot yet. */
    constructor (storage: Storage)
      ensures this.storage == storage
      ensures profile == EmptyProfile && initialProfile == None
      ensures newEmail == "" && newPhone == ""
    {
      this.storage := storage;
      profile := EmptyProfile;
      initialProfile := None;
      newEmail := "";
      newPhone := "";
    }

    /** The mount effect: a stored profile becomes both the profile and the snapshot; without one nothing changes. */
    method Load()
      modifies this`profile, this`initialProfile
      ensures StorageKey in storage.items ==>
        profile == storage.items[StorageKey] && initialProfile == Some(storage.items[StorageKey])
      ensures StorageKey !in storage.items ==>
        profile == old(profile) && initialProfile == old(initialProfile)
    {
      if StorageKey in storage.items {
        var saved := storage.items[StorageKey];
        profile := saved;
        initialProfile := Some(saved);
      }
    }

    /**
     * `saveProfile`: refused while the primary email is empty; otherwise the
     * profile goes to the slot and becomes the snapshot. `saved` tells which
     * of the two alerts is shown.
     */
    method SaveProfile() returns (saved: bool)
      modifies this`initialProfile, storage`items
      ensures saved <==> profile.primaryEmail != ""
      ensures saved ==> storage.items == old(storage.items)[StorageKey := profile] && initialProfile == Some(profile)
      ensures !saved ==> storage.items == old(storage.items) && initialProfile == old(initialProfile)
    {
      if profile.primaryEmail == "" {
        return false;
      }
      storage.items := storage.items[StorageKey := profile];
      initialProfile := Some(profile);
      saved := true;
    }

    /** `cancelChanges`: back to the snapshot when there is one, otherwise nothing happens. */
    method CancelChanges()
      modifies this`profile
      ensures old(initialProfile).Some? ==> profile == old(initialProfile).value
      ensures old(initialProfile).None? ==> profile == old(profile)
    {
      if initialProfile.Some? {
        profile := initialProfile.value;
      }
    }

    /** Typing in the new-email input. */
    method SetNewEmail(value: string)
      modifies this`newEmail
      ensures newEmail == value
    {
      newEmail := value;
    }

    /** Typing in the new-phone input. */
    method SetNewPhone(value: string)
      modifies this`newPhone
      ensures newPhone == value
    {
      newPhone := value;
    }

    /** `handleAddEmail`: an empty or already listed input changes nothing; otherwise it is appended and cleared. */
    method AddEmail()
      modifies this`profile, this`newEmail
      ensures var added := AppendUnique(old(profile.additionalEmails), old(newEmail));
        if added.Some? then
          profile == old(profile).(additionalEmails := added.value) && newEmail == ""
        else
          profile == old(profile) && newEmail == old(newEmail)
    {
      var added := AppendUnique(profile.additionalEmails, newEmail);
      if added.Some? {
        profile := profile.(additionalEmails := added.value);
        newEmail := "";
      }
    }

    /** `handleAddPhone`: the same on the phone numbers. */
    method AddPhone()
      modifies this`profile, this`newPhone
      ensures var added := AppendUnique(old(profile.phoneNumbers), old(newPhone));
        if added.Some? then
          profile == old(profile).(phoneNumbers := added.value) && newPhone == ""
        else
          profile == old(profile) && newPhone == old(newPhone)
    {
      var added := AppendUnique(profile.phoneNumbers, newPhone);
      if added.Some? {
        profile := profile.(phoneNumbers := added.value);
        newPhone := "";
      }
    }

    /** `handleRemoveEmail`: filters out that position of the additional emails. */
    method RemoveEmail(index: int)
      modifies this`profile
      ensures profile == old(profile).(additionalEmails := Entries.RemoveAt(old(profile.additionalEmails), index))
    {
      profile := profile.(additionalEmails := Entries.RemoveAt(profile.additionalEmails, index));
    }

    /** `handleRemovePhone`: filters out that position of the phone numbers. */
    method RemovePhone(index: int)
      modifies this`profile
      ensures profile == old(profile).(phoneNumbers := Entries.RemoveAt(old(profile.phoneNumbers), index))
    {
      profile := profile.(phoneNumbers := Entries.RemoveAt(profile.phoneNumbers, index));
    }

    /** Typing in the name field: only the name changes. */
    method SetName(value: string)
      modifies this`profile
      ensures profile == old(profile).(name := value)
    {
      profile := profile.(name := value);
    }

    /** Typing in the primary email field: only the primary email changes. */
    method SetPrimaryEmail(value: string)
      modifies this`profile
      ensures profile == old(profile).(primaryEmail := value)
    {
      profile := profile.(primaryEmail := value);
    }
  }

  /** Opening the section with nothing stored shows the empty profile and no snapshot, so cancel does nothing. */
  method MountWithoutSavedProfile(storage: Storage) returns (editor: ProfileEditor)
    requires StorageKey !in storage.items
    ensures editor.profile == EmptyProfile && editor.initialProfile == None
  {
    editor := new ProfileEditor(storage);
    editor.Load();
  }

  /**
   * Leaving the tab unmounts the section and coming back mounts a new one:
   * after a successful save, the new one loads exactly the saved profile.
   */
  method SaveThenRemount(editor: ProfileEditor) returns (remounted: ProfileEditor)
    requires editor.profile.primaryEmail != ""
    modifies editor, editor.storage
    ensures remounted.profile == old(editor.profile)
    ensures remounted.initialProfile == Some(old(editor.profile))
  {
    var saved := editor.SaveProfile();
    remounted := new ProfileEditor(editor.storage);
    remounted.Load();
  }

  /** Edits after a save are undone by cancel, list order included. */
  method EditThenCancel(editor: ProfileEditor, email: string, index: int)
    requires editor.profile.primaryEmail != ""
    modifies editor, editor.storage
    ensures editor.profile == old(editor.profile)
  {
    var saved := editor.SaveProfile();
    editor.SetNewEmail(email);
    editor.AddEmail();
    editor.RemovePhone(index);
    editor.SetName("");
    editor.CancelChanges();
  }
}
