/** The user document as the controllers and guards read it. The user schema itself
    (server/models/user.js, backend/models/userModel.js) is not part of this model: the fields
    below are the ones the code touches. */
module Users {
  import opened Common

  /** `role` is a free string ("user", "vendor", "admin"); the empty string stands for a
      missing role, which JavaScript treats as falsy. */
  datatype User = User(
    id: Id,
    name: string,
    email: string,
    role: string,
    password: string,
    verifyOtp: string,
    resetOtp: string,
    isAccountVerified: bool,
    createdAt: int)

  function UserId(u: User): Id
  {
    u.id
  }

  predicate IsVendor(u: User)
  {
    u.role == "vendor"
  }

  /** A user as listed to administrators: `.select("-password -verifyOtp -resetOtp")`. */
  datatype PublicUser = PublicUser(
    id: Id,
    name: string,
    email: string,
    role: string,
    isAccountVerified: bool,
    createdAt: int)

  function WithoutSecrets(u: User): (p: PublicUser)
    ensures p.id == u.id && p.name == u.name && p.email == u.email && p.role == u.role
    ensures p.isAccountVerified == u.isAccountVerified && p.createdAt == u.createdAt
  {
    PublicUser(u.id, u.name, u.email, u.role, u.isAccountVerified, u.createdAt)
  }

  /** The listed user together with the three hidden fields is the whole user: exactly those
      three fields are dropped and nothing else. */
  lemma WithoutSecretsDropsOnlySecrets(u: User)
    ensures var p := WithoutSecrets(u);
      User(p.id, p.name, p.email, p.role, u.password, u.verifyOtp, u.resetOtp, p.isAccountVerified, p.createdAt) == u
  {
  }

  /** The listing does not depend on the hidden fields. */
  lemma WithoutSecretsHidesSecrets(u: User, password: string, verifyOtp: string, resetOtp: string)
    ensures WithoutSecrets(u.(password := password, verifyOtp := verifyOtp, resetOtp := resetOtp)) == WithoutSecrets(u)
  {
  }
}
