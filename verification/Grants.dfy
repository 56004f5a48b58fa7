/** A grant in the ledger: one package may use another, and with `components` mount it in its screens. */
module Grants {
  datatype Grant = Grant(consumer: string, provider: string, components: bool)
}
