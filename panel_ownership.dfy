/** How the handlers fit together for a self-registered user: registration stores a
    UUID as `accountId`, login signs it into the token as `id`, and create-panel
    cannot turn that `id` into the ObjectId of the panel's owner. */
module PanelOwnership {
  import opened Wrappers
  import opened Documents
  import Register
  import Login
  import CreatePanel

  /** The identity in the token of any user whose `accountId` is a 36-character
      UUID never converts to a panel owner, so create-panel throws after the remote
      server exists and records nothing. */
  lemma RegisteredUserCannotOwnPanels(u: User)
    requires u.accountId.Some? && |u.accountId.value| == 36
    ensures !CreatePanel.OwnerConvertible(Login.Payload(u))
  {
    CreatePanel.UuidOwnerNotConvertible(Login.Payload(u));
  }

  /** The same for the very document registration inserts. */
  lemma RegisteredAccountCannotOwnPanels(b: Register.RegisterBody, hashed: string, uuid: string, now: Time)
    requires Register.Complete(b) && |uuid| == 36
    ensures !CreatePanel.OwnerConvertible(Login.Payload(Register.NewUser(b, hashed, uuid, now)))
  {
    RegisteredUserCannotOwnPanels(Register.NewUser(b, hashed, uuid, now));
  }
}
