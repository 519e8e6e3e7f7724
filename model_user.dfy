/** domain/src/model/user.rs: users, their validating constructor and the
    role permission maps. The source selects the role with a phantom type
    parameter `User<T: Role>`; the model keeps that choice as the field
    `role`, fixed when the user is built. */
module ModelUser {
  import opened Wrappers
  import opened Utf8

  const NameTooShort := "Name must be at least 1 character long"
  const NameTooLong := "Name exceeds maximum length(50 characters)"
  const InvalidIconUrl := "Icon URL is invalid URL."

  const AdminContents := "get,find,create,update,delete"
  const MemberContents := "get"

  /** The two implementations of the `Role` trait. */
  datatype RoleKind = Admin | Member

  datatype User = User(id: string, name: string, iconUrl: string, role: RoleKind)

  /** `Authorities`: resource name to comma-separated allowed actions. */
  type Authorities = map<string, string>

  /** What `permissions()` returns for each role. */
  function AuthoritiesOf(kind: RoleKind): (m: Authorities)
    ensures m.Keys == {"contents"}
    ensures m["contents"] == if kind == Admin then AdminContents else MemberContents
  {
    match kind
    case Admin => map["contents" := AdminContents]
    case Member => map["contents" := MemberContents]
  }

  /** `Admin::permissions`: a fresh map with one insert. */
  method AdminPermissions() returns (permissions: Authorities)
    ensures permissions == AuthoritiesOf(Admin)
    ensures permissions.Keys == {"contents"} && permissions["contents"] == AdminContents
  {
    permissions := map[];
    permissions := permissions["contents" := AdminContents];
  }

  /** `Member::permissions`: a fresh map with one insert. */
  method MemberPermissions() returns (permissions: Authorities)
    ensures permissions == AuthoritiesOf(Member)
    ensures permissions.Keys == {"contents"} && permissions["contents"] == MemberContents
  {
    permissions := map[];
    permissions := permissions["contents" := MemberContents];
  }

  /** `User::permissions`: delegates to the role, so it depends on nothing
      but the role. */
  method Permissions(user: User) returns (permissions: Authorities)
    ensures permissions == AuthoritiesOf(user.role)
  {
    match user.role
    case Admin => permissions := AdminPermissions();
    case Member => permissions := MemberPermissions();
  }

  /** A name of 1 to 50 bytes and an icon URL the URL parser accepts. */
  predicate Valid(u: User, isUrl: string -> bool)
  {
    1 <= ByteLen(u.name) <= 50 && isUrl(u.iconUrl)
  }

  /** `User::<T>::try_new`, with `isUrl` standing for `url::Url::parse(..).is_ok()`:
      accepts exactly the valid users, stores the arguments unchanged, and
      consults the URL parser only once both name checks pass. */
  function TryNew(role: RoleKind, id: string, name: string, iconUrl: string, isUrl: string -> bool): (r: Result<User>)
    ensures r.Ok? <==> Valid(User(id, name, iconUrl, role), isUrl)
    ensures r.Ok? ==> r.value == User(id, name, iconUrl, role)
    ensures ByteLen(name) < 1 ==> r == Err(NameTooShort)
    ensures ByteLen(name) > 50 ==> r == Err(NameTooLong)
    ensures (1 <= ByteLen(name) <= 50 && !isUrl(iconUrl)) ==> r == Err(InvalidIconUrl)
  {
    if ByteLen(name) < 1 then Err(NameTooShort)
    else if ByteLen(name) > 50 then Err(NameTooLong)
    else if !isUrl(iconUrl) then Err(InvalidIconUrl)
    else Ok(User(id, name, iconUrl, role))
  }

  /** The name checks come first: a bad name is reported whatever the URL
      parser would say, so two parsers that disagree give the same error. */
  lemma NameCheckedBeforeUrl(role: RoleKind, id: string, name: string, iconUrl: string,
                             isUrl1: string -> bool, isUrl2: string -> bool)
    requires !(1 <= ByteLen(name) <= 50)
    ensures TryNew(role, id, name, iconUrl, isUrl1) == TryNew(role, id, name, iconUrl, isUrl2)
    ensures TryNew(role, id, name, iconUrl, isUrl1).Err?
  {
  }

  /** A 50-byte name with an icon URL the parser accepts builds an admin user. */
  lemma AcceptsFiftyByteName(isUrl: string -> bool, c: char)
    requires (c as int) < 0x80
    requires isUrl("https://example.com")
    ensures TryNew(Admin, Repeat(c, 50), Repeat(c, 50), "https://example.com", isUrl).Ok?
  {
    RepeatByteLen(c, 50);
  }
}
