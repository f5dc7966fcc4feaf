/** The resources that events are about. */
module Uris {
  const PREFIX := "odoo://"

  predicate OdooUri(uri: string) {
    PREFIX <= uri
  }
}
