/** An invoice line, as both the local store and the server keep it: `{ name, qty, price }`. */
module LineItem {

  datatype Item = Item(name: string, qty: real, price: real)
}
