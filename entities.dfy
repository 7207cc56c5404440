/**
 * The two records the front end and the backend exchange as JSON: a password
 * entry (its password in clear) and a category. Passwords name their category
 * by name, not by id.
 */
module Entities {

  datatype PasswordItem = PasswordItem(
    id: string,
    title: string,
    username: string,
    password: string,
    url: string,
    notes: string,
    category: string,
    createdAt: nat,
    updatedAt: nat)

  datatype Category = Category(id: string, name: string, icon: string)

  /** The test "has this id" that both layers use to find a category. */
  function CategoryIdIs(id: string): Category -> bool {
    (c: Category) => c.id == id
  }
}
