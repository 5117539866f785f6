/** models/user.go: the account record the authentication middleware puts in the request context. */
module Users {
  /** The role and subscription level are free text in the database; the named values follow. */
  datatype User = User(id: string, email: string, role: string, subscriptionLevel: string)

  const RoleUser := "user"
  const RoleAdmin := "admin"

  const SubscriptionFree := "free"
  const SubscriptionPremium := "premium"
  const SubscriptionBusiness := "business"
}
