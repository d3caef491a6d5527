/** What the model needs of `net/http`: a handler is an opaque value, and a
    route is one `(pattern, handler)` pair handed to `ServeMux.Handle`. */
module Http {
  import opened Json

  datatype Handler =
      /** A handler supplied by the program; `id` tells handlers apart. */
    | Func(id: nat)
      /** The `/healthz` handler of `WithSimpleHealth`, answering 200 "ok". */
    | Healthz
      /** The handler of `Menu.Handler`, answering with the menu's JSON document. */
    | MenuDocument(doc: Json)

  datatype Route = Route(pattern: string, handler: Handler)
}
