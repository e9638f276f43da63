/** The shapes of the REST catalog's payloads and of the errors the pipeline
    meets, and the catalog itself, given as an input instead of a network. */
module Api {
  import opened Wrappers

  /** The prefix of the primary endpoint: the record of identifier `id` lives at `PokemonUrl(id)`. */
  const PokemonEndpoint: string := "https://pokeapi.co/api/v2/pokemon/"

  /** The only language the name lookups ask for. */
  const TargetLanguage: string := "es"

  /** The JavaScript errors that can reach a `.catch`. */
  datatype Failure =
    | Network(message: string)          // fetch or `response.json()` rejected; `fetchData` re-throws it
    | ReadOfUndefined(property: string) // TypeError: a property read on `undefined`
    | NotFound(id: string)              // the Error thrown when a fetched record has no name

  /** `error.message` of each failure, in the wording of the V8 engine for TypeErrors. */
  function Message(f: Failure): string {
    match f
    case Network(msg) => msg
    case ReadOfUndefined(p) => "Cannot read properties of undefined (reading '" + p + "')"
    case NotFound(id) => NotFoundText(id)
  }

  /** The text of a tombstone, and the message of the Error thrown for a record without a name. */
  function NotFoundText(id: string): string {
    "Pokemon with ID " + id + " not found"
  }

  /** A `{name, url}` reference to a sub-resource (a type, an ability or a move). */
  datatype NamedRef = NamedRef(name: string, url: string)

  /** One entry of a sub-resource's `names` list: `{language: {name}, name}`. */
  datatype LocalizedName = LocalizedName(language: string, name: string)

  /** The body of a type, ability or move endpoint. */
  datatype Detail = Detail(names: seq<LocalizedName>)

  /** `data.sprites` of a primary record; either image may be `null` in the catalog. */
  datatype Sprites = Sprites(frontDefault: Option<string>, frontShiny: Option<string>)

  /** The body of the primary endpoint, with the fields the pipeline reads.
      `name` is `None` when the field is absent; `sprites` is `None` when it is absent
      (reading `front_default` from it then throws). */
  datatype Payload = Payload(
    id: int,
    name: Option<string>,
    sprites: Option<Sprites>,
    height: int,
    weight: int,
    types: seq<NamedRef>,
    abilities: seq<NamedRef>,
    moves: seq<NamedRef>)

  /** What a GET of each URL settles to. `pokemon` answers the primary endpoint,
      `None` standing for a falsy JSON body (`null`, `false`, `0`, `""`);
      `detail` answers the sub-resource URLs. */
  datatype Catalog = Catalog(
    pokemon: string -> Result<Option<Payload>, Failure>,
    detail: string -> Result<Detail, Failure>)

  /** The URL `getPokemon` fetches for identifier `id`. */
  function PokemonUrl(id: string): string {
    PokemonEndpoint + id
  }
}
