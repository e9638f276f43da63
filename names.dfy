/** The localized-name lookup shared by the type, ability and move lookups:
    fetch a sub-resource, take the first entry of its `names` list whose language
    is "es" and read that entry's `name`. */
module Names {
  import opened Wrappers
  import opened Api

  /** Entry `i` is the first entry of `names` in language `lang`. */
  predicate IsFirstIn(names: seq<LocalizedName>, lang: string, i: int) {
    && 0 <= i < |names|
    && names[i].language == lang
    && forall j :: 0 <= j < i ==> names[j].language != lang
  }

  /** `names.find(n => n.language.name === lang)`: the first entry in language
      `lang`, or `undefined` (`None`) when there is none. */
  function FindLanguage(names: seq<LocalizedName>, lang: string): (r: Option<LocalizedName>)
    ensures r.None? <==> forall i :: 0 <= i < |names| ==> names[i].language != lang
    ensures r.Some? ==> exists i :: IsFirstIn(names, lang, i) && names[i] == r.value
  {
    if |names| == 0 then None
    else if names[0].language == lang then Some(names[0])
    else
      var r := FindLanguage(names[1..], lang);
      assert forall i :: 1 <= i < |names| ==> names[i] == names[1..][i - 1];
      assert r.Some? ==> exists i :: IsFirstIn(names[1..], lang, i) && names[1..][i] == r.value;
      assert r.Some? ==> exists i :: IsFirstIn(names, lang, i) && names[i] == r.value by {
        if r.Some? {
          var i :| IsFirstIn(names[1..], lang, i) && names[1..][i] == r.value;
          assert IsFirstIn(names, lang, i + 1);
        }
      }
      r
  }

  /** One lookup, `fetchData(url).then(data => data.names.find(...).name)`: the
      fetch's rejection passes through; a payload without an "es" entry throws a
      TypeError, because `.name` is read from `undefined`; otherwise the name of
      the first "es" entry. */
  function ResolveName(catalog: Catalog, url: string): (r: Result<string, Failure>)
    ensures catalog.detail(url).Err? ==> r == Err(catalog.detail(url).error)
    ensures catalog.detail(url).Ok? ==>
      var names := catalog.detail(url).value.names;
      && (r.Ok? <==> exists i :: 0 <= i < |names| && names[i].language == TargetLanguage)
      && (r.Ok? ==> exists i :: IsFirstIn(names, TargetLanguage, i) && names[i].name == r.value)
      && (r.Err? ==> r.error == ReadOfUndefined("name"))
  {
    match catalog.detail(url)
    case Err(e) => Err(e)
    case Ok(detail) =>
      match FindLanguage(detail.names, TargetLanguage)
      case None => Err(ReadOfUndefined("name"))
      case Some(entry) => Ok(entry.name)
  }

  /** `Promise.all(refs.map(lookup))`, as in `getPokemonTypes` and
      `getPokemonAbilities`: every name in order when every lookup succeeds, and a
      rejection carrying one of the failed lookups' errors otherwise. */
  function ResolveAll(catalog: Catalog, refs: seq<NamedRef>): (r: Result<seq<string>, Failure>)
    ensures r.Ok? <==> forall i :: 0 <= i < |refs| ==> ResolveName(catalog, refs[i].url).Ok?
    ensures r.Ok? ==> |r.value| == |refs|
    ensures r.Ok? ==> forall i :: 0 <= i < |refs| ==> r.value[i] == ResolveName(catalog, refs[i].url).value
    ensures r.Err? ==> exists i :: 0 <= i < |refs| && ResolveName(catalog, refs[i].url) == Err(r.error)
  {
    if |refs| == 0 then Ok([])
    else
      var rest := ResolveAll(catalog, refs[1..]);
      assert forall i :: 1 <= i < |refs| ==> refs[i] == refs[1..][i - 1];
      match ResolveName(catalog, refs[0].url)
      case Err(e) => Err(e)
      case Ok(name) =>
        match rest
        case Err(e) =>
          assert exists i :: 0 <= i < |refs| && ResolveName(catalog, refs[i].url) == Err(e) by {
            var i :| 0 <= i < |refs[1..]| && ResolveName(catalog, refs[1..][i].url) == Err(e);
            assert refs[i + 1] == refs[1..][i];
          }
          Err(e)
        case Ok(names) => Ok([name] + names)
  }
}
