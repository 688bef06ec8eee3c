/** The profile record both profile editors edit. */
module Records {

  /** `ProfileData`: a name, the required primary address and two ordered lists. */
  datatype ProfileData = ProfileData(
    name: string,
    primaryEmail: string,
    additionalEmails: seq<string>,
    phoneNumbers: seq<string>)

  /** The record a fresh profile editor starts from: every field empty. */
  const EmptyProfile := ProfileData("", "", [], [])
}
