# A model of the pokemon-test lookup pipeline

The repository is a browser page that looks up Pokémon in the public PokeAPI
catalog by identifier and shows each one as a card. This project models the
data pipeline behind the page, in `src/index.js`. It turns a list of identifiers
into an ordered list of items. Each item is either a resolved record or a
"not found" tombstone. The pipeline's properties are proved in Dafny:

- `Input` models `getCommaSeparatedValues`. It cuts the search text at commas
  and keeps the pieces whose trim is not empty. The kept pieces are not trimmed.
- `Names` models the Spanish-name lookup shared by `getPokemonTypes`,
  `getPokemonAbilities` and `getPokemonMoves`: `data.names.find(n =>
  n.language.name === "es").name`. It also models the `Promise.all` that
  combines the type lookups and the ability lookups.
- `Batching` models the loop in `getPokemonMoves` that cuts the move lookups
  into groups of 10.
- `Moves` models the `reduce` chain that concatenates the groups' settled
  results, and the mapping of rejected lookups to the placeholder
  "Nombre no encontrado".
- `Pokedex` models the rest. `getPokemon` copies fields out of the payload.
  The record object then has its `types`, `abilities` and `moves` overwritten
  in place (class `PokemonObject`, method `Enrich`). `renderArrayItems` builds
  one item per identifier.
- `Api` holds the payload shapes, the error values and their messages. It also
  holds `Catalog`, which stands in for the network.

The network is an input. A `Catalog` value says what a GET of each URL settles
to: a payload or a rejection. The primary endpoint's answer may also be a falsy
body. Each pure step of the source is a function, and the loops and in-place
updates are methods. Each method is proved against the function that
specifies it.

What `src/index.js` does at a few points where a reader might expect otherwise; the model follows the code:

- The text "1, , 4," gives `["1", " 4"]`, not `["1", "4"]`, because kept
  pieces are not trimmed (`Input.CommaSeparatedExample`).
- A type or ability lookup that fails turns the whole record into a tombstone.
  A move lookup that fails becomes the placeholder. The model keeps this
  asymmetry.
- The type, ability and move lists are awaited one after another, not
  concurrently. If the type lookups fail, the ability lookups are never
  awaited. `Pokedex.Enrich` follows this order.
- The move lookups are all started by `pokemon.moves.map(...)` before the
  list is cut into groups. So the groups decide only the order in which
  results are collected. They do not limit how many requests run at once.
  The model has no concurrency, so this is stated here and not proved.
- A falsy primary body makes `getPokemon` return `undefined`. Reading
  `response.name` then throws a TypeError. So the tombstone's `error` is that
  TypeError's message, not "Pokemon with ID … not found".
- An empty-string name counts as missing, since `""` is falsy.

## Model

| member | source | states |
|---|---|---|
| `Input.CommaSeparatedValues` | src/index.js:247-251 | `None` (undefined) exactly for a missing or empty text. Otherwise the result is `NonBlank(Split(text))`: every piece of the split text that is not blank, untrimmed and in order, and each returned piece is comma-free and not blank |
| `Input.Split` | src/index.js:249 | `split(",")` always gives at least one piece and no piece contains a comma. `Input.JoinSplit` and `Input.SplitJoin` pin it down as the inverse of joining with commas |
| `Input.Trim` | src/index.js:249 | `val.trim()`: leading, then trailing characters in `IsWhitespace` (ECMAScript WhiteSpace and LineTerminator) removed. `Input.TrimEmptyIffBlank` states when the result is empty |
| `Input.NonBlank` | src/index.js:249 | `filter(val => val.trim() !== "")`. `Input.NonBlankMembers`, `Input.NonBlankSingle` and `Input.FilterAppend` state which pieces it keeps and that it keeps their order |
| `Input.JoinSplit` | src/index.js:249 | joining the pieces of `split(",")` with commas gives the text back, so each piece is a verbatim slice, surrounding spaces included |
| `Input.SplitJoin` | src/index.js:249 | splitting comma-free pieces joined by commas gives the pieces back (split is the inverse of join) |
| `Input.TrimEmptyIffBlank` | src/index.js:249 | `val.trim() === ""` exactly when every character is ECMAScript whitespace or a line terminator |
| `Input.FilterAppend` | src/index.js:249 | `filter` of a concatenation is the concatenation of the filters, so order is kept |
| `Input.NonBlankSingle` | src/index.js:249 | a single piece is kept exactly when it is not blank, and it is kept unchanged |
| `Input.NonBlankMembers` | src/index.js:249 | a piece is in the result exactly when it is among the split pieces and not blank |
| `Input.CommaSeparatedExample` | src/index.js:247-251 | "1, , 4," parses to `["1", " 4"]`: blanks are dropped and " 4" keeps its space |
| `Names.FindLanguage` | src/index.js:37 | `find` gives `undefined` exactly when no entry has the language. Otherwise it gives the first entry with that language |
| `Names.ResolveName` | src/index.js:49-54 | a rejected fetch passes through. Otherwise the lookup succeeds exactly when some entry is in "es", giving the first such entry's name. With no "es" entry it throws the TypeError of reading `name` from `undefined` |
| `Names.ResolveAll` | src/index.js:32-57 | `Promise.all` fulfils exactly when every lookup does, with the names in list order. Otherwise it rejects with the error of one of the failed lookups |
| `Batching.Chunks` | src/index.js:79-81 | the groups of at most `size` consecutive elements the loop produces. `Batching.ChunksFlatten`, `Batching.ChunksCount` and `Batching.ChunksShape` state their contents, number and sizes |
| `Batching.PartitionBatches` | src/index.js:76-81 | the loop stepping `i` by 10 and pushing `slice(i, i + 10)` produces exactly `Chunks(items, 10)` |
| `Batching.ChunksFlatten` | src/index.js:78-81 | the groups laid end to end give back the list: nothing lost, duplicated or reordered |
| `Batching.ChunksCount` | src/index.js:77-81 | there are ceil(n/size) groups: none for an empty list, else the fewest groups of `size` that hold n elements |
| `Batching.ChunksShape` | src/index.js:79-81 | every group is non-empty with at most `size` elements, and every group but the last has exactly `size` |
| `Batching.ChunksOf101` | src/index.js:76-81 | 101 moves make 11 groups, the 11th holding one move |
| `Moves.AllSettled` | src/index.js:86 | `Promise.allSettled` gives one entry per lookup, in order: fulfilled with the value or rejected with the error |
| `Moves.Chain` | src/index.js:83-90 | the `reduce` that settles each batch in turn and concatenates its entries to the results. `Moves.ChainIsConcat` states what it computes |
| `Moves.AllSettledAppend` | src/index.js:86 | settling a concatenation gives the concatenation of the settled parts, which `Moves.ChainIsConcat` uses |
| `Moves.ChainIsConcat` | src/index.js:83-90 | the `reduce` chain appends each batch's settled entries to the accumulated results, in batch order |
| `Moves.ChainedLookups` | src/index.js:67-90 | the chained result over the 10-element groups equals the settled lookups of the whole move list |
| `Moves.SettledName` | src/index.js:92-98 | a fulfilled entry gives its value and a rejected one the placeholder. `Moves.MoveNames` states the effect per move |
| `Moves.MoveNames` | src/index.js:67-101 | `getPokemonMoves` gives one name per move, in order: the "es" name where the lookup succeeded, "Nombre no encontrado" where it was rejected. It never rejects. The per-move lookups (`.map` at lines 68-74) are the plain definition `Moves.MoveLookups` |
| `Moves.MoveFailureIsolated` | src/index.js:92-98 | the name at position i depends only on the lookup of move i. A rejection elsewhere never changes it |
| `Pokedex.Project` | src/index.js:9-21 | a falsy body gives `undefined`. A body without sprites throws reading `front_default`. Otherwise the record's id, name, height, weight, types, abilities and moves equal the payload's, and front/shiny equal `sprites.front_default`/`front_shiny` |
| `Pokedex.GetPokemon` | src/index.js:7-22 | a rejected fetch passes its error through. It fulfils exactly when the fetch does and the body is falsy or has sprites. It fulfils with `undefined` exactly for a falsy body |
| `Pokedex.Assemble` | src/index.js:193-202 | a record without a (non-empty) name rejects with "Pokemon with ID <id> not found". It succeeds exactly when it has a name and every type and ability lookup succeeds. The card then has the record's fields, one "es" name per type and per ability in order, and `getPokemonMoves`' names |
| `Pokedex.ItemFor` | src/index.js:191-207 | the item of one identifier: a tombstone always carries "Pokemon with ID <id> not found", and a resolved card always has a non-empty name. `Pokedex.FoundIff` and the tombstone lemmas say which one it is |
| `Pokedex.PokemonObject.constructor` | src/index.js:11-21 | the object built from a projection holds its fields, with the three lists still holding references |
| `Pokedex.Enrich` | src/index.js:193-202 | the result is `Assemble` of the record as fetched. `types`, then `abilities`, then `moves` are overwritten with resolved names, each only once the lookups before it succeeded. A record without a name is left untouched and rejected |
| `Pokedex.AssembleItem` | src/index.js:191-207 | the item for one identifier is `ItemFor`: the fetched and overwritten record, or the tombstone when anything on the way rejects |
| `Pokedex.RenderArrayItems` | src/index.js:178-210 | a falsy or non-array argument yields nothing. An array yields exactly one item per identifier, item i being the item of identifier i |
| `Pokedex.TombstoneOnPrimaryFailure` | src/index.js:194-206 | a rejected or falsy fetch, missing sprites, or a missing or empty name gives the tombstone "Pokemon with ID <id> not found". Its error is the fetch's message, or the TypeError of reading `name` from `undefined` |
| `Pokedex.TombstoneOnLookupFailure` | src/index.js:195-206 | one rejected type or ability lookup turns the whole record into the tombstone |
| `Pokedex.FoundIff` | src/index.js:193-207 | a record resolves exactly when its fetch gives a named record with sprites whose type and ability lookups all succeed. Move lookups play no part |
| `Pokedex.FoundCard` | src/index.js:193-198 | a resolved record keeps the payload's fields and has the "es" names of its types and abilities in order. It has one move entry per move in order, the placeholder where a lookup failed |

## Left out

- The DOM layer is not modelled: `renderPokemon`, `clearLastResults`, `setLoading`, `toggleExplain`, `toggleClearButton`, `clearInput`, `inputFocus`, `resetFormAndClean`, `cardEvents`, `init`, and the `renderItems` entry point that reads the search box. They are presentation glue with no data logic.
- `fetchData`, `fetch` and `response.json()` are network I/O. Their outcomes are the `Catalog` input. A catalog answers the same URL the same way every time, so repeated lookups of one sub-resource agree by construction.
- Concurrency and scheduling are not modelled: the promises, the sequential `.then` between groups, and how many requests are in flight. Only the resulting order and contents are.
- `Names.ResolveAll`: when several lookups reject, `Promise.all` reports whichever rejects first in time. The model reports the first in list order. Only the tombstone's `error` text depends on this, never its `notFound`.
- `getRandomNumber` is not modelled. It draws from `Math.random` and loops until it has enough distinct numbers, with no bound on how long that takes. Identifiers are modelled as strings, as the search box produces them.
- Payloads hold only the fields the pipeline reads. A truthy body that is not an object, a missing `id`/`height`/`weight`, and a sub-resource body without `names` are not modelled.
- Console logging is not modelled.
- JavaScript strings are UTF-16 code units, while Dafny's `char` is a Unicode scalar value, so lone surrogates are not representable.
