/** Identifiers of rows, groups, members and workers, and fresh ones where the source draws a random UUID. */
module Identifiers {
  /** Only equality matters, and for some tables the order in which rows are listed. */
  type Id = int

  method Pick<T>(s: set<T>) returns (x: T)
    requires s != {}
    ensures x in s
  {
    x :| x in s;
  }

  method FreshId(taken: set<int>) returns (id: int)
    ensures id !in taken
  {
    id := 0;
    var rest := taken;
    while rest != {}
      invariant forall i | i in taken && i !in rest :: i < id
    {
      var i := Pick(rest);
      rest := rest - {i};
      if i >= id {
        id := i + 1;
      }
    }
  }
}
