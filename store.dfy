/** The database as one object whose fields are its tables. Route handlers
    read the fields and reassign the ones they write. */
module Store {
  import opened Records
  import opened Table

  /** At most one address of each user has is_default set. The schema does not
      enforce this; the address routes keep it as long as their reset writes
      succeed. */
  ghost predicate OneDefaultPerUser(a: seq<Address>) {
    forall i, j :: 0 <= i < j < |a| && a[i].isDefault && a[j].isDefault ==> a[i].userId != a[j].userId
  }

  class Db {
    var users: seq<User>
    var services: seq<Service>
    var addresses: seq<Address>
    var orders: seq<Order>
    var orderItems: seq<OrderItem>
    var transactions: seq<Transaction>

    /** Primary keys are unique and a mobile number belongs to at most one user. */
    ghost predicate Valid()
      reads this
    {
      && DistinctKeys(users, UserKey) && DistinctKeys(users, UserMobile)
      && DistinctKeys(services, ServiceKey)
      && DistinctKeys(addresses, AddressKey)
      && DistinctKeys(orders, OrderKey)
      && DistinctKeys(orderItems, ItemKey)
      && DistinctKeys(transactions, TxnKey)
    }

    /** A database holding the given service catalogue and nothing else. */
    constructor (catalogue: seq<Service>)
      requires DistinctKeys(catalogue, ServiceKey)
      ensures Valid()
      ensures services == catalogue
      ensures users == [] && addresses == [] && orders == [] && orderItems == [] && transactions == []
    {
      users, services, addresses := [], catalogue, [];
      orders, orderItems, transactions := [], [], [];
    }
  }
}
