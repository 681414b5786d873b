/**
 * The documents the application reads from its store, reduced to the fields the modelled
 * logic touches. A field the document lacks is the empty string, which JavaScript treats
 * as false just as it treats a missing field.
 */
module Records {
  import opened Wrappers
  import opened Seqs

  /**
   * One line of a sale. `cantidad` is the quantity as `parseInt` / `parseFloat` / `Number`
   * read it: `None` when the text is not a number. `precio` is the price text as entered.
   */
  datatype Item = Item(kombuchaId: string, cantidad: Option<int>, precio: string)

  /** A sale (`ventas` document). `items` is `None` when the document has no item list. */
  datatype Sale = Sale(id: string, cliente: string, fecha: string, items: Option<seq<Item>>, estado: string)

  /** A customer (`clientes` document). */
  datatype Customer = Customer(id: string, nombre: string, telefono: string, direccion: string)

  /** A product (`kombuchas` document); its price is kept as the text that was entered. */
  datatype Kombucha = Kombucha(id: string, nombre: string, precio: string)

  /** `parseInt(item.cantidad) || 0`: an unreadable quantity counts as zero. */
  function Quantity(item: Item): int {
    match item.cantidad
    case Some(q) => q
    case None => 0
  }

  /** `customers.find(c => c.id === id)`. */
  function FindCustomer(customers: seq<Customer>, id: string): (r: Option<Customer>)
    ensures r.None? <==> forall c :: c in customers ==> c.id != id
    ensures r.Some? ==> exists k :: 0 <= k < |customers| && customers[k] == r.value && r.value.id == id
                          && forall k' :: 0 <= k' < k ==> customers[k'].id != id
  {
    Find(customers, (c: Customer) => c.id == id)
  }

  /** `getClienteName`, as the sales and the routes pages both define it. */
  function ClienteName(clientes: seq<Customer>, id: string): string {
    match FindCustomer(clientes, id)
    case Some(c) => c.nombre
    case None => "Cliente no encontrado"
  }
}
