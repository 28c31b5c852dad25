/** The database the server actions share: every table is a field of one
    object, and each action changes only the fields its `modifies` names. */
module Store {
  import opened JsText
  import opened Schema

  class Db {
    var products: map<string, Product>
    var sales: map<int, Sale>
    /** The next value of the sales table's autoincrement id. */
    var nextSaleId: int
    var users: map<string, User>
    var clients: map<string, Client>
    var expenses: seq<Expense>
    var appointments: set<string>
    /** The row with id 'default', when it exists. */
    var settings: Option<Settings>

    /** Every stored sale id was issued by the autoincrement counter. */
    ghost predicate Valid()
      reads this
    {
      0 <= nextSaleId && forall id :: id in sales ==> 0 <= id < nextSaleId
    }

    constructor ()
      ensures Valid()
      ensures products == map[] && sales == map[] && nextSaleId == 1
      ensures users == map[] && clients == map[] && expenses == [] && appointments == {}
      ensures settings == None
    {
      products, sales, nextSaleId := map[], map[], 1;
      users, clients, expenses, appointments := map[], map[], [], {};
      settings := None;
    }
  }
}
