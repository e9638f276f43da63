/** The record assembler and the batch orchestrator: `getPokemon`'s projection of
    the primary payload, the in-place replacement of a record's reference lists by
    resolved names, and `renderArrayItems`, which turns a list of identifiers into
    one resolved record or tombstone per identifier, in order. */
module Pokedex {
  import opened Wrappers
  import opened Api
  import opened Names
  import opened Moves

  /** The object literal `getPokemon` resolves to. */
  datatype Pokemon = Pokemon(
    id: int,
    name: Option<string>,
    front: Option<string>,
    shiny: Option<string>,
    height: int,
    weight: int,
    types: seq<NamedRef>,
    abilities: seq<NamedRef>,
    moves: seq<NamedRef>)

  /** The callback of `getPokemon`: `undefined` (`Ok(None)`) for a falsy body; a
      TypeError when the body has no `sprites`; otherwise the copied fields. */
  function Project(data: Option<Payload>): (r: Result<Option<Pokemon>, Failure>)
    ensures data.None? ==> r == Ok(None)
    ensures data.Some? && data.value.sprites.None? ==> r == Err(ReadOfUndefined("front_default"))
    ensures data.Some? && data.value.sprites.Some? ==> r.Ok? && r.value.Some?
    ensures r.Ok? && r.value.Some? ==>
      var p, q := data.value, r.value.value;
      && q.id == p.id && q.name == p.name && q.height == p.height && q.weight == p.weight
      && q.front == p.sprites.value.frontDefault && q.shiny == p.sprites.value.frontShiny
      && q.types == p.types && q.abilities == p.abilities && q.moves == p.moves
  {
    match data
    case None => Ok(None)
    case Some(p) =>
      match p.sprites
      case None => Err(ReadOfUndefined("front_default"))
      case Some(sprites) =>
        Ok(Some(Pokemon(p.id, p.name, sprites.frontDefault, sprites.frontShiny,
                        p.height, p.weight, p.types, p.abilities, p.moves)))
  }

  /** `getPokemon(id)`: a rejected fetch passes its error through; it fulfils
      exactly when the fetch does and the body is falsy or has sprites, and it
      fulfils with `undefined` exactly for a falsy body. */
  function GetPokemon(catalog: Catalog, id: string): (r: Result<Option<Pokemon>, Failure>)
    ensures catalog.pokemon(PokemonUrl(id)).Err? ==> r == Err(catalog.pokemon(PokemonUrl(id)).error)
    ensures r.Ok? <==> var f := catalog.pokemon(PokemonUrl(id));
      f.Ok? && (f.value.None? || f.value.value.sprites.Some?)
    ensures r == Ok(None) <==> catalog.pokemon(PokemonUrl(id)) == Ok(None)
  {
    match catalog.pokemon(PokemonUrl(id))
    case Err(e) => Err(e)
    case Ok(data) => Project(data)
  }

  /** JavaScript truthiness of `response.name`: present and not the empty string. */
  predicate HasName(name: Option<string>) {
    name.Some? && name.value != ""
  }

  /** A resolved record, as `renderArrayItems` hands it on. */
  datatype Card = Card(
    id: int,
    name: string,
    front: Option<string>,
    shiny: Option<string>,
    height: int,
    weight: int,
    types: seq<string>,
    abilities: seq<string>,
    moves: seq<string>)

  /** What the orchestrator produces per identifier: a resolved record, or the
      tombstone `{notFound, error}`. */
  datatype Item = Found(card: Card) | Tombstone(notFound: string, error: string)

  /** The assembly of one fetched record, as a specification: no name rejects with
      the "not found" Error; a rejected type or ability lookup rejects the whole
      record (`Promise.all`); move lookups never do. */
  function Assemble(catalog: Catalog, p: Pokemon, id: string): (r: Result<Card, Failure>)
    ensures !HasName(p.name) ==> r == Err(NotFound(id))
    ensures r.Ok? <==>
      && HasName(p.name)
      && (forall i :: 0 <= i < |p.types| ==> ResolveName(catalog, p.types[i].url).Ok?)
      && (forall i :: 0 <= i < |p.abilities| ==> ResolveName(catalog, p.abilities[i].url).Ok?)
    ensures r.Ok? ==>
      var c := r.value;
      && c.id == p.id && c.name == p.name.value && c.name != ""
      && c.front == p.front && c.shiny == p.shiny && c.height == p.height && c.weight == p.weight
      && |c.types| == |p.types| && |c.abilities| == |p.abilities| && c.moves == MoveNames(catalog, p.moves)
      && (forall i :: 0 <= i < |p.types| ==> Ok(c.types[i]) == ResolveName(catalog, p.types[i].url))
      && (forall i :: 0 <= i < |p.abilities| ==> Ok(c.abilities[i]) == ResolveName(catalog, p.abilities[i].url))
  {
    if !HasName(p.name) then Err(NotFound(id))
    else
      match ResolveAll(catalog, p.types)
      case Err(e) => Err(e)
      case Ok(types) =>
        match ResolveAll(catalog, p.abilities)
        case Err(e) => Err(e)
        case Ok(abilities) =>
          Ok(Card(p.id, p.name.value, p.front, p.shiny, p.height, p.weight,
                  types, abilities, MoveNames(catalog, p.moves)))
  }

  /** The item one identifier yields, as a specification: every rejection along
      the way is caught and becomes a tombstone naming the identifier. */
  function ItemFor(catalog: Catalog, id: string): (r: Item)
    ensures r.Tombstone? ==> r.notFound == NotFoundText(id)
    ensures r.Found? ==> r.card.name != ""
  {
    match GetPokemon(catalog, id)
    case Err(e) => Tombstone(NotFoundText(id), Message(e))
    case Ok(None) => Tombstone(NotFoundText(id), Message(ReadOfUndefined("name")))
    case Ok(Some(p)) =>
      match Assemble(catalog, p, id)
      case Err(e) => Tombstone(NotFoundText(id), Message(e))
      case Ok(card) => Found(card)
  }

  /** A list field of the record object: the catalog's references until
      `renderArrayItems` overwrites it with the resolved names. */
  datatype Slots = RefList(refs: seq<NamedRef>) | NameList(names: seq<string>)

  /** The object `getPokemon` returns, whose `types`, `abilities` and `moves`
      are overwritten in place during assembly. */
  class PokemonObject {
    const id: int
    const name: Option<string>
    const front: Option<string>
    const shiny: Option<string>
    const height: int
    const weight: int
    var types: Slots
    var abilities: Slots
    var moves: Slots

    /** The fetched object, before any list is overwritten. */
    predicate Unresolved()
      reads this
    {
      types.RefList? && abilities.RefList? && moves.RefList?
    }

    /** The record as a value, while no list has been overwritten. */
    function Snapshot(): Pokemon
      reads this
      requires Unresolved()
    {
      Pokemon(id, name, front, shiny, height, weight, types.refs, abilities.refs, moves.refs)
    }

    constructor (p: Pokemon)
      ensures Unresolved() && Snapshot() == p
    {
      id, name, front, shiny := p.id, p.name, p.front, p.shiny;
      height, weight := p.height, p.weight;
      types, abilities, moves := RefList(p.types), RefList(p.abilities), RefList(p.moves);
    }
  }

  /** The `.then(async (response) => ...)` callback of `renderArrayItems`: a record
      without a name rejects; otherwise `types`, then `abilities`, then `moves` are
      awaited and overwritten in turn, a rejection stopping the sequence with the
      lists before it already overwritten; the overwritten object is returned. */
  method Enrich(catalog: Catalog, response: PokemonObject, id: string) returns (r: Result<Card, Failure>)
    requires response.Unresolved()
    modifies response
    ensures r == Assemble(catalog, old(response.Snapshot()), id)
    ensures var p := old(response.Snapshot());
      var types, abilities := ResolveAll(catalog, p.types), ResolveAll(catalog, p.abilities);
      && response.types == (if HasName(p.name) && types.Ok? then NameList(types.value) else RefList(p.types))
      && response.abilities ==
           (if HasName(p.name) && types.Ok? && abilities.Ok? then NameList(abilities.value) else RefList(p.abilities))
      && response.moves ==
           (if r.Ok? then NameList(MoveNames(catalog, p.moves)) else RefList(p.moves))
  {
    if !HasName(response.name) {
      return Err(NotFound(id));
    }
    var types := ResolveAll(catalog, response.types.refs);
    if types.Err? {
      return Err(types.error);
    }
    response.types := NameList(types.value);
    var abilities := ResolveAll(catalog, response.abilities.refs);
    if abilities.Err? {
      return Err(abilities.error);
    }
    response.abilities := NameList(abilities.value);
    response.moves := NameList(MoveNames(catalog, response.moves.refs));
    r := Ok(Card(response.id, response.name.value, response.front, response.shiny,
                 response.height, response.weight,
                 response.types.names, response.abilities.names, response.moves.names));
  }

  /** The promise `renderArrayItems` builds for one identifier: fetch, assemble in
      place, and catch any rejection as a tombstone. */
  method AssembleItem(catalog: Catalog, id: string) returns (item: Item)
    ensures item == ItemFor(catalog, id)
  {
    match GetPokemon(catalog, id)
    case Err(e) =>
      item := Tombstone(NotFoundText(id), Message(e));
    case Ok(None) =>
      item := Tombstone(NotFoundText(id), Message(ReadOfUndefined("name")));
    case Ok(Some(p)) =>
      var response := new PokemonObject(p);
      var r := Enrich(catalog, response, id);
      item := if r.Ok? then Found(r.value) else Tombstone(NotFoundText(id), Message(r.error));
  }

  /** The argument of `renderArrayItems`: falsy, a truthy value that is not an
      array, or an array of identifiers. */
  datatype IdsArg = Falsy | NotAnArray | Array(ids: seq<string>)

  /** `renderArrayItems(ids)`: nothing for a falsy or non-array argument;
      otherwise the items handed to the renderer, one per identifier, in the
      identifiers' order (`ids.map` and `Promise.all` are positional). */
  method RenderArrayItems(catalog: Catalog, arg: IdsArg) returns (rendered: Option<seq<Item>>)
    ensures rendered.Some? <==> arg.Array?
    ensures rendered.Some? ==> |rendered.value| == |arg.ids|
    ensures rendered.Some? ==> forall i :: 0 <= i < |arg.ids| ==> rendered.value[i] == ItemFor(catalog, arg.ids[i])
  {
    if !arg.Array? {
      return None;
    }
    var ids := arg.ids;
    var items: seq<Item> := [];
    for i := 0 to |ids|
      invariant |items| == i
      invariant forall j :: 0 <= j < i ==> items[j] == ItemFor(catalog, ids[j])
    {
      var item := AssembleItem(catalog, ids[i]);
      items := items + [item];
    }
    rendered := Some(items);
  }

  /** A rejected or falsy primary fetch, a body without sprites, and a record
      whose name is missing or empty all yield the tombstone naming the identifier;
      a rejected fetch's message and the TypeError of reading `name` from
      `undefined` are kept as its `error`. */
  lemma TombstoneOnPrimaryFailure(catalog: Catalog, id: string)
    requires var f := catalog.pokemon(PokemonUrl(id));
      f.Err? || f.value.None? || f.value.value.sprites.None? || !HasName(f.value.value.name)
    ensures ItemFor(catalog, id).Tombstone?
    ensures ItemFor(catalog, id).notFound == "Pokemon with ID " + id + " not found"
    ensures catalog.pokemon(PokemonUrl(id)).Err? ==>
      ItemFor(catalog, id).error == Message(catalog.pokemon(PokemonUrl(id)).error)
    ensures catalog.pokemon(PokemonUrl(id)) == Ok(None) ==>
      ItemFor(catalog, id).error == "Cannot read properties of undefined (reading 'name')"
  {
  }

  /** A single rejected type or ability lookup turns the whole record into the
      tombstone, whatever the other lookups give. */
  lemma TombstoneOnLookupFailure(catalog: Catalog, id: string, data: Payload, i: nat)
    requires catalog.pokemon(PokemonUrl(id)) == Ok(Some(data))
    requires (i < |data.types| && ResolveName(catalog, data.types[i].url).Err?)
          || (i < |data.abilities| && ResolveName(catalog, data.abilities[i].url).Err?)
    ensures ItemFor(catalog, id).Tombstone?
    ensures ItemFor(catalog, id).notFound == "Pokemon with ID " + id + " not found"
  {
    if data.sprites.Some? && HasName(data.name) {
      var p := Project(Some(data)).value.value;
      if i < |data.types| && ResolveName(catalog, data.types[i].url).Err? {
        assert !ResolveName(catalog, p.types[i].url).Ok?;
      } else {
        assert !ResolveName(catalog, p.abilities[i].url).Ok?;
      }
    }
  }

  /** Every identifier is resolved exactly when its fetch gives a named record with
      sprites whose type and ability lookups all succeed. Move lookups do not
      appear: a rejected move lookup never turns a record into a tombstone. */
  lemma FoundIff(catalog: Catalog, id: string)
    ensures ItemFor(catalog, id).Found? <==>
      var f := catalog.pokemon(PokemonUrl(id));
      && f.Ok? && f.value.Some? && f.value.value.sprites.Some? && HasName(f.value.value.name)
      && (forall i :: 0 <= i < |f.value.value.types| ==> ResolveName(catalog, f.value.value.types[i].url).Ok?)
      && (forall i :: 0 <= i < |f.value.value.abilities| ==> ResolveName(catalog, f.value.value.abilities[i].url).Ok?)
  {
    var f := catalog.pokemon(PokemonUrl(id));
    if f.Ok? && f.value.Some? && f.value.value.sprites.Some? {
      var p := Project(f.value).value.value;
      assert p.types == f.value.value.types && p.abilities == f.value.value.abilities;
    }
  }

  /** A resolved record carries the payload's fields, the "es" names of its types
      and abilities in their order, and one entry per move in order: the move's
      "es" name, or the placeholder where its lookup was rejected. */
  lemma FoundCard(catalog: Catalog, id: string, data: Payload)
    requires catalog.pokemon(PokemonUrl(id)) == Ok(Some(data))
    requires ItemFor(catalog, id).Found?
    ensures var c := ItemFor(catalog, id).card;
      && data.sprites.Some? && data.name.Some?
      && c.id == data.id && c.name == data.name.value && c.height == data.height && c.weight == data.weight
      && c.front == data.sprites.value.frontDefault && c.shiny == data.sprites.value.frontShiny
      && |c.types| == |data.types| && |c.abilities| == |data.abilities| && |c.moves| == |data.moves|
      && (forall i :: 0 <= i < |data.types| ==> Ok(c.types[i]) == ResolveName(catalog, data.types[i].url))
      && (forall i :: 0 <= i < |data.abilities| ==> Ok(c.abilities[i]) == ResolveName(catalog, data.abilities[i].url))
      && (forall i :: 0 <= i < |data.moves| ==>
            c.moves[i] == match ResolveName(catalog, data.moves[i].url)
                          case Ok(name) => name
                          case Err(_) => Placeholder)
  {
    var p := Project(Some(data)).value.value;
    assert p.moves == data.moves;
  }
}
