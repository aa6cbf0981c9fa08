/**
 * The members table of the team page (app/dashboard/team/page.tsx): the
 * display name chosen for each member from the identity provider's profile,
 * the avatar initials, the "(You)" marker, which controls an Admin sees, and
 * the empty-table row. The membership rows and the profiles are inputs.
 */
module TeamPage {
  import opened Wrappers
  import opened JsStrings

  /** The fields of an identity-provider profile the page reads; `None` is `undefined`/`null`. */
  datatype Profile = Profile(
    username: Option<string>, firstName: Option<string>, lastName: Option<string>, emailAddresses: seq<string>)

  datatype Member = Member(id: string, userId: string, role: string)

  /** What one member's row shows. */
  datatype MemberRow = MemberRow(initials: string, nameLabel: string, email: Option<string>, role: string, canDelete: bool)

  /** `x || ''` for an optional string. */
  function OrEmpty(x: Option<string>): (r: string)
    ensures x.None? ==> r == ""
    ensures x.Some? ==> r == x.value
  {
    x.GetOr("")
  }

  /** `clerkUser?.emailAddresses?.[0]?.emailAddress`. */
  function FirstEmail(user: Option<Profile>): (r: Option<string>)
    ensures r.Some? <==> user.Some? && |user.value.emailAddresses| > 0
    ensures r.Some? ==> r.value == user.value.emailAddresses[0]
  {
    if user.Some? && |user.value.emailAddresses| > 0 then Some(user.value.emailAddresses[0]) else None
  }

  /** `` `${first || ''} ${last || ''}`.trim() ``, empty without a profile. */
  function FullName(user: Option<Profile>): string {
    if user.None? then Trim(" ")
    else Trim(OrEmpty(user.value.firstName) + " " + OrEmpty(user.value.lastName))
  }

  /** `clerkUser?.username` is falsy. */
  predicate NoUsername(user: Option<Profile>) {
    user.None? || OrEmpty(user.value.username) == ""
  }

  /** `primaryName`: username, then full name, then first email address, then the member's user id. */
  function PrimaryName(user: Option<Profile>, member: Member): (r: string)
    ensures !NoUsername(user) ==> r == user.value.username.value
    ensures NoUsername(user) && FullName(user) != "" ==> r == FullName(user)
    ensures (NoUsername(user) && FullName(user) == "" && OrEmpty(FirstEmail(user)) != "") ==> r == FirstEmail(user).value
    ensures (NoUsername(user) && FullName(user) == "" && OrEmpty(FirstEmail(user)) == "") ==> r == member.userId
  {
    if !NoUsername(user) then user.value.username.value
    else if FullName(user) != "" then FullName(user)
    else if OrEmpty(FirstEmail(user)) != "" then FirstEmail(user).value
    else member.userId
  }

  /** Every member with a user id gets a non-empty name, whatever the profile holds. */
  lemma PrimaryNameNonEmpty(user: Option<Profile>, member: Member)
    requires member.userId != ""
    ensures PrimaryName(user, member) != ""
  {
  }

  /** Without a profile the name falls back to the user id, since the full name trims to nothing. */
  lemma {:induction false} NoProfileShowsUserId(member: Member)
    ensures PrimaryName(None, member) == member.userId
  {
    assert FullName(None) == "" by {
      TrimEmptyIff(" ");
    }
  }

  /** `(primaryName || '').substring(0, 2).toUpperCase()`. */
  function Initials(name: string): (r: string)
    ensures |r| == if |name| < 2 then |name| else 2
    ensures forall i :: 0 <= i < |r| ==> r[i] == UpperChar(name[i])
  {
    ToUpper(Prefix(name, 2))
  }

  /** The current user's row carries the `(You)` marker. */
  function NameLabel(name: string, isMe: bool): (r: string)
    ensures isMe ==> r == name + " (You)"
    ensures !isMe ==> r == name
  {
    if isMe then name + " (You)" else name
  }

  /** The delete control: shown to an Admin, on every row but their own. */
  predicate CanDelete(viewerRole: string, viewerId: string, member: Member) {
    viewerRole == "Admin" && member.userId != viewerId
  }

  /** `colSpan` of the "No members found" row: one more column (Actions) for an Admin. */
  function EmptyRowColSpan(viewerRole: string): (r: nat)
    ensures viewerRole == "Admin" ==> r == 4
    ensures viewerRole != "Admin" ==> r == 3
  {
    if viewerRole == "Admin" then 4 else 3
  }

  /** The "No members found" row is shown for a missing or empty member list. */
  predicate ShowsEmptyRow(members: Option<seq<Member>>) {
    members.None? || members.value == []
  }

  /** One row, for the member with profile `user`, as seen by `viewerId` with role `viewerRole`. */
  function RenderMember(member: Member, user: Option<Profile>, viewerId: string, viewerRole: string): (r: MemberRow)
    ensures r.initials == Initials(PrimaryName(user, member))
    ensures r.nameLabel == NameLabel(PrimaryName(user, member), member.userId == viewerId)
    ensures r.email == FirstEmail(user) && r.role == member.role
    ensures r.canDelete == CanDelete(viewerRole, viewerId, member)
  {
    var name := PrimaryName(user, member);
    MemberRow(Initials(name), NameLabel(name, member.userId == viewerId), FirstEmail(user), member.role,
      CanDelete(viewerRole, viewerId, member))
  }

  /** The table body: one row per member, in order, each with the profile found under its user id. */
  function RenderMembers(members: seq<Member>, profiles: map<string, Profile>, viewerId: string, viewerRole: string)
    : (rows: seq<MemberRow>)
    ensures |rows| == |members|
    ensures forall i :: 0 <= i < |members| ==>
      rows[i] == RenderMember(members[i], if members[i].userId in profiles then Some(profiles[members[i].userId]) else None,
                              viewerId, viewerRole)
  {
    seq(|members|, i requires 0 <= i < |members| =>
      RenderMember(members[i], if members[i].userId in profiles then Some(profiles[members[i].userId]) else None,
                   viewerId, viewerRole))
  }

  /** No viewer can delete their own membership, and a non-Admin can delete none. */
  lemma DeleteNeverOwnRow(members: seq<Member>, profiles: map<string, Profile>, viewerId: string, viewerRole: string, i: nat)
    requires i < |members|
    ensures var row := RenderMembers(members, profiles, viewerId, viewerRole)[i];
      && (members[i].userId == viewerId ==> !row.canDelete)
      && (viewerRole != "Admin" ==> !row.canDelete)
      && (members[i].userId == viewerId ==> row.nameLabel == PrimaryName(
            if members[i].userId in profiles then Some(profiles[members[i].userId]) else None, members[i]) + " (You)")
  {
  }
}
