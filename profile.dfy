/** The profile hooks: reading the viewer's profile, and the update mutation
    that updates an existing row or inserts a default profile. */
module Profiles {
  import opened Common

  datatype Profile = Profile(
    id: string,
    username: string,
    displayName: string,
    usernameId: string,
    university: string,
    department: string,
    bio: Option<string>,
    profileImageUrl: Option<string>,
    studentId: Option<string>,
    createdAt: Option<string>,
    updatedAt: Option<string>)

  /** `Partial<Profile>`: each key present or absent. */
  datatype ProfilePatch = ProfilePatch(
    id: Option<string>,
    username: Option<string>,
    displayName: Option<string>,
    usernameId: Option<string>,
    university: Option<string>,
    department: Option<string>,
    bio: Option<string>,
    profileImageUrl: Option<string>,
    studentId: Option<string>,
    createdAt: Option<string>,
    updatedAt: Option<string>)

  /** The signed-in account as the auth client reports it. */
  datatype Account = Account(id: UserId, email: Option<string>)

  /** `useProfile`: the id whose row is read, or no read at all without a viewer. */
  function ProfileReadFor(viewer: Option<Account>): (r: Option<UserId>)
    ensures r.None? <==> viewer.None?
    ensures r.Some? ==> r.value == viewer.value.id
  {
    if viewer.None? then None else Some(viewer.value.id)
  }

  /** `user.email?.split('@')[0] || 'user'`. */
  function EmailName(email: Option<string>): (r: string)
    ensures r != ""
    ensures '@' !in r || r == "user"
    ensures email.None? ==> r == "user"
    ensures email.Some? && BeforeFirst(email.value, '@') != "" ==> r == BeforeFirst(email.value, '@')
    ensures email.Some? && BeforeFirst(email.value, '@') == "" ==> r == "user"
  {
    if email.None? then "user" else OrElse(Some(BeforeFirst(email.value, '@')), "user")
  }

  /** The local part of an address names the default user. */
  lemma EmailNameIsLocalPart(local: string, domain: string)
    requires local != "" && '@' !in local
    ensures EmailName(Some(local + "@" + domain)) == local
  {
    BeforeFirstOfJoin(local, '@', domain);
  }

  /** An address with nothing before the '@' falls back to "user". */
  lemma EmailWithoutLocalPart(domain: string)
    ensures EmailName(Some("@" + domain)) == "user"
  {
    BeforeFirstOfJoin("", '@', domain);
    assert "" + "@" + domain == "@" + domain;
  }

  /** A spread key: present in the patch, it wins; absent, the default stays. */
  function Spread(patched: Option<string>, default: string): (r: string)
    ensures patched.Some? ==> r == patched.value
    ensures patched.None? ==> r == default
  {
    if patched.Some? then patched.value else default
  }

  const DefaultDisplayName: string := "익명의 대학생"
  const DefaultBio: string := "안녕하세요!"
  const DefaultUniversity: string := "Unknown University"
  const DefaultDepartment: string := "Unknown Department"

  /** `newProfile`: the default record, then `...profileData` on top, so every
      key the patch holds (`id` included) replaces the default. */
  function NewProfile(account: Account, patch: ProfilePatch): (p: Profile)
    ensures p.id == Spread(patch.id, account.id)
    ensures p.username == Spread(patch.username, EmailName(account.email))
    ensures p.usernameId == Spread(patch.usernameId, EmailName(account.email))
    ensures p.displayName == Spread(patch.displayName, DefaultDisplayName)
    ensures p.bio == Some(Spread(patch.bio, DefaultBio))
    ensures p.university == Spread(patch.university, DefaultUniversity)
    ensures p.department == Spread(patch.department, DefaultDepartment)
    ensures p.profileImageUrl == patch.profileImageUrl && p.studentId == patch.studentId
    ensures p.createdAt == patch.createdAt && p.updatedAt == patch.updatedAt
  {
    var name := EmailName(account.email);
    Profile(
      Spread(patch.id, account.id),
      Spread(patch.username, name),
      Spread(patch.displayName, OrElse(patch.displayName, DefaultDisplayName)),
      Spread(patch.usernameId, name),
      Spread(patch.university, DefaultUniversity),
      Spread(patch.department, DefaultDepartment),
      Some(Spread(patch.bio, OrElse(patch.bio, DefaultBio))),
      patch.profileImageUrl,
      patch.studentId,
      patch.createdAt,
      patch.updatedAt)
  }

  /** An empty patch yields the default profile for the account. */
  lemma EmptyPatchGivesDefaults(account: Account)
    ensures var p := NewProfile(account, ProfilePatch(None, None, None, None, None, None, None, None, None, None, None));
            p.id == account.id && p.displayName == DefaultDisplayName && p.bio == Some(DefaultBio)
            && p.university == DefaultUniversity && p.department == DefaultDepartment
            && p.username == p.usernameId == EmailName(account.email)
  {
  }

  /** A display name given as "" still overrides the default: the spread
      comes after the `||` fallback. */
  lemma EmptyDisplayNameIsKept(account: Account, patch: ProfilePatch)
    requires patch.displayName == Some("")
    ensures NewProfile(account, patch).displayName == ""
  {
  }

  /** The write of `useUpdateProfile`. */
  datatype ProfileWrite = UpdateRow(id: UserId, patch: ProfilePatch) | InsertRow(profile: Profile)

  /** `useUpdateProfile`: refused without a viewer; otherwise the existence read
      decides between updating the viewer's row and inserting a new profile. */
  function UpdateProfile(viewer: Option<Account>, rowExists: bool, patch: ProfilePatch): (r: Result<ProfileWrite>)
    ensures viewer.None? <==> r == Err(Unauthenticated)
    ensures r.Ok? ==> (r.value.UpdateRow? <==> rowExists)
    ensures r.Ok? && rowExists ==> r.value == UpdateRow(viewer.value.id, patch)
    ensures r.Ok? && !rowExists ==> r.value == InsertRow(NewProfile(viewer.value, patch))
  {
    if viewer.None? then Err(Unauthenticated)
    else if rowExists then Ok(UpdateRow(viewer.value.id, patch))
    else Ok(InsertRow(NewProfile(viewer.value, patch)))
  }
}
