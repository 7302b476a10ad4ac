/** Value records shared by the seed exporter and the seed reader, and the two
    failure-carrying wrappers used for the registry's and the loaders' results.
    Only the fields the seed pipeline looks at are kept: a server's ID (the join
    key back to the registry), its Name, and a detail's Packages. */
module Model {

  /** The conventional Some/None wrapper; None stands for a lookup that failed. */
  datatype Option<+T> = None | Some(value: T)

  /** A value or the error that prevented it. */
  datatype Result<+T, +E> = Success(value: T) | Failure(error: E)

  /** One distributable artifact of a server, e.g. an npm package. */
  datatype Package = Package(registryName: string, name: string, version: string)

  /** A registry entry as returned by a listing. */
  datatype Server = Server(id: string, name: string)

  /** A server enriched with its packages (in insertion order). */
  datatype ServerDetail = ServerDetail(server: Server, packages: seq<Package>)
}
