/** The test the Manager role's filter applies to a permission id, and the
    facts about it on each catalog id. */
module ManagerIds {
  import Strings

  /** `!p.id.includes(x)` for each of the three ids a Manager may not hold. */
  predicate Keeps(id: string) {
    !Strings.Contains(id, "users.delete") &&
    !Strings.Contains(id, "roles.manage") &&
    !Strings.Contains(id, "properties.delete")
  }

  /** The three excluded ids are themselves dropped. */
  lemma DropsExcluded(id: string)
    requires id in ["users.delete", "roles.manage", "properties.delete"]
    ensures !Keeps(id)
  {
    Strings.ContainsSelf(id);
  }

  /** Ids shorter than all three excluded ids keep by length alone. */
  lemma ShortIdsKept()
    ensures Keeps("rooms.view")
    ensures Keeps("rooms.edit")
    ensures Keeps("guests.view")
    ensures Keeps("guests.edit")
    ensures Keeps("users.view")
    ensures Keeps("users.edit")
    ensures Keeps("roles.view")
  {
    Strings.NotContainsLonger("rooms.view", "users.delete");
    Strings.NotContainsLonger("rooms.view", "roles.manage");
    Strings.NotContainsLonger("rooms.view", "properties.delete");
    Strings.NotContainsLonger("rooms.edit", "users.delete");
    Strings.NotContainsLonger("rooms.edit", "roles.manage");
    Strings.NotContainsLonger("rooms.edit", "properties.delete");
    Strings.NotContainsLonger("guests.view", "users.delete");
    Strings.NotContainsLonger("guests.view", "roles.manage");
    Strings.NotContainsLonger("guests.view", "properties.delete");
    Strings.NotContainsLonger("guests.edit", "users.delete");
    Strings.NotContainsLonger("guests.edit", "roles.manage");
    Strings.NotContainsLonger("guests.edit", "properties.delete");
    Strings.NotContainsLonger("users.view", "users.delete");
    Strings.NotContainsLonger("users.view", "roles.manage");
    Strings.NotContainsLonger("users.view", "properties.delete");
    Strings.NotContainsLonger("users.edit", "users.delete");
    Strings.NotContainsLonger("users.edit", "roles.manage");
    Strings.NotContainsLonger("users.edit", "properties.delete");
    Strings.NotContainsLonger("roles.view", "users.delete");
    Strings.NotContainsLonger("roles.view", "roles.manage");
    Strings.NotContainsLonger("roles.view", "properties.delete");
  }

  lemma KeepsPropertiesView()
    ensures Keeps("properties.view")
  {
    Strings.NotContainsMissingChar("properties.view", "users.delete", 'u');
    Strings.NotContainsMissingChar("properties.view", "roles.manage", 'm');
    Strings.NotContainsLonger("properties.view", "properties.delete");
  }

  lemma KeepsPropertiesCreate()
    ensures Keeps("properties.create")
  {
    Strings.NotContainsMissingChar("properties.create", "users.delete", 'u');
    Strings.NotContainsMissingChar("properties.create", "roles.manage", 'm');
    Strings.NotContainsMissingChar("properties.create", "properties.delete", 'l');
  }

  lemma KeepsPropertiesEdit()
    ensures Keeps("properties.edit")
  {
    Strings.NotContainsMissingChar("properties.edit", "users.delete", 'u');
    Strings.NotContainsMissingChar("properties.edit", "roles.manage", 'm');
    Strings.NotContainsLonger("properties.edit", "properties.delete");
  }

  lemma KeepsRoomsCreate()
    ensures Keeps("rooms.create")
  {
    Strings.NotContainsMissingChar("rooms.create", "users.delete", 'u');
    Strings.NotContainsMissingChar("rooms.create", "roles.manage", 'g');
    Strings.NotContainsLonger("rooms.create", "properties.delete");
  }

  lemma KeepsRoomsDelete()
    ensures Keeps("rooms.delete")
  {
    Strings.NotContainsMissingChar("rooms.delete", "users.delete", 'u');
    Strings.NotContainsMissingChar("rooms.delete", "roles.manage", 'g');
    Strings.NotContainsLonger("rooms.delete", "properties.delete");
  }

  lemma KeepsBookingsView()
    ensures Keeps("bookings.view")
  {
    Strings.NotContainsMissingChar("bookings.view", "users.delete", 'u');
    Strings.NotContainsMissingChar("bookings.view", "roles.manage", 'm');
    Strings.NotContainsLonger("bookings.view", "properties.delete");
  }

  lemma KeepsBookingsCreate()
    ensures Keeps("bookings.create")
  {
    Strings.NotContainsMissingChar("bookings.create", "users.delete", 'u');
    Strings.NotContainsMissingChar("bookings.create", "roles.manage", 'm');
    Strings.NotContainsLonger("bookings.create", "properties.delete");
  }

  lemma KeepsBookingsEdit()
    ensures Keeps("bookings.edit")
  {
    Strings.NotContainsMissingChar("bookings.edit", "users.delete", 'u');
    Strings.NotContainsMissingChar("bookings.edit", "roles.manage", 'm');
    Strings.NotContainsLonger("bookings.edit", "properties.delete");
  }

  lemma KeepsBookingsDelete()
    ensures Keeps("bookings.delete")
  {
    Strings.NotContainsMissingChar("bookings.delete", "users.delete", 'u');
    Strings.NotContainsMissingChar("bookings.delete", "roles.manage", 'm');
    Strings.NotContainsLonger("bookings.delete", "properties.delete");
  }

  lemma KeepsBookingsCheckin()
    ensures Keeps("bookings.checkin")
  {
    Strings.NotContainsMissingChar("bookings.checkin", "users.delete", 'u');
    Strings.NotContainsMissingChar("bookings.checkin", "roles.manage", 'm');
    Strings.NotContainsLonger("bookings.checkin", "properties.delete");
  }

  lemma KeepsBookingsCheckout()
    ensures Keeps("bookings.checkout")
  {
    Strings.NotContainsMissingChar("bookings.checkout", "users.delete", 'r');
    Strings.NotContainsMissingChar("bookings.checkout", "roles.manage", 'm');
    Strings.NotContainsMissingChar("bookings.checkout", "properties.delete", 'p');
  }

  lemma KeepsGuestsCreate()
    ensures Keeps("guests.create")
  {
    Strings.NotContainsMissingChar("guests.create", "users.delete", 'd');
    Strings.NotContainsMissingChar("guests.create", "roles.manage", 'm');
    Strings.NotContainsLonger("guests.create", "properties.delete");
  }

  lemma KeepsGuestsDelete()
    ensures Keeps("guests.delete")
  {
    Strings.NotContainsMissingChar("guests.delete", "users.delete", 'r');
    Strings.NotContainsMissingChar("guests.delete", "roles.manage", 'm');
    Strings.NotContainsLonger("guests.delete", "properties.delete");
  }

  lemma KeepsFinanceView()
    ensures Keeps("finance.view")
  {
    Strings.NotContainsMissingChar("finance.view", "users.delete", 'u');
    Strings.NotContainsMissingChar("finance.view", "roles.manage", 'l');
    Strings.NotContainsLonger("finance.view", "properties.delete");
  }

  lemma KeepsFinanceManage()
    ensures Keeps("finance.manage")
  {
    Strings.NotContainsMissingChar("finance.manage", "users.delete", 'u');
    Strings.NotContainsMissingChar("finance.manage", "roles.manage", 'l');
    Strings.NotContainsLonger("finance.manage", "properties.delete");
  }

  lemma KeepsFinanceReports()
    ensures Keeps("finance.reports")
  {
    Strings.NotContainsMissingChar("finance.reports", "users.delete", 'u');
    Strings.NotContainsMissingChar("finance.reports", "roles.manage", 'l');
    Strings.NotContainsLonger("finance.reports", "properties.delete");
  }

  lemma KeepsUsersCreate()
    ensures Keeps("users.create")
  {
    Strings.NotContainsMissingChar("users.create", "users.delete", 'd');
    Strings.NotContainsMissingChar("users.create", "roles.manage", 'm');
    Strings.NotContainsLonger("users.create", "properties.delete");
  }
}
